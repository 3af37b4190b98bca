/** con_swap up to its closing con_fix_percent calls: the exchange, the focus, the
  * hints and the fullscreen modes. */
module SwapWhole {
  import opened Order
  import opened Containers
  import opened Swapping
  import opened Urgency
  import opened SwapUrgency
  import opened FocusUrgency
  import opened SwapFocus
  import opened FullscreenSearch
  import opened Workspaces
  import opened Activation
  import opened Fullscreen
  import opened SwapModes
  import FocusOps
  import SwapFocusOps

  // ---------------------------------------------------------------- a proper tree stays one

  lemma SwapFloating(f: Forest, a: Con, b: Con, x: Con)
    requires CanSwap(f, a, b) && FloatingHeld(f) && x in f && Swap(f, a, b)[x].floating
    ensures var g := Swap(f, a, b); g[x].parent != null && g[x].parent in g && g[g[x].parent].ty == FloatingCon
  {
    var y := if x == a then b else if x == b then a else x;
    assert f[y].floating && Attached(f, y);
    SwapKeepsOwn(f, a, b, f[y].parent);
  }

  lemma SwapTopFloating(f: Forest, a: Con, b: Con, x: Con)
    requires CanSwap(f, a, b) && FloatingHeld(f) && x in f && Swap(f, a, b)[x].ty == FloatingCon
    ensures Attached(Swap(f, a, b), x)
  {
    assert f[x].ty == FloatingCon && Attached(f, x);
    SwapAttached(f, a, b, x);
  }

  lemma SwapHeld(f: Forest, g: Forest, a: Con, b: Con)
    requires CanSwap(f, a, b) && FloatingHeld(f) && g == Swap(f, a, b)
    ensures FloatingHeld(g)
  {
    SwapKeeps(f, a, b);
    forall x | x in g && g[x].floating ensures Attached(g, x) && g[g[x].parent].ty == FloatingCon {
      SwapFloating(f, a, b, x);
      if x != a && x != b { SwapAttached(f, a, b, x); }
    }
    forall x | x in g && g[x].ty == FloatingCon ensures Attached(g, x) {
      SwapTopFloating(f, a, b, x);
    }
  }

  lemma SwapShelved(f: Forest, a: Con, b: Con)
    requires CanSwap(f, a, b) && WorkspacesShelved(f)
    ensures WorkspacesShelved(Swap(f, a, b))
  {
    var g := Swap(f, a, b);
    forall x | x in g && g[x].ty == Workspace
      ensures Attached(g, x) && forall y :: y in g[g[x].parent].nodes ==> y in g && g[y].ty == Workspace
    {
      assert Attached(f, x);
      SwapAttached(f, a, b, x);
      ExchangedMembers(f[f[x].parent].nodes, a, b);
    }
  }

  lemma SwapProper(f: Forest, a: Con, b: Con)
    requires CanSwap(f, a, b) && Proper(f)
    ensures Proper(Swap(f, a, b))
  {
    SwapFocusOps.SwapReady(f, a, b);
    SwapHeld(f, Swap(f, a, b), a, b);
    SwapShelved(f, a, b);
  }

  // ---------------------------------------------------------------- focus and hints

  lemma HintLists(g: Forest, h: Forest, focus: Con, c: Con)
    requires WellFormed(h) && SameLists(g, h) && SameModes(g, h) && c in h
    ensures var k := Rehinted(h, focus, c); WellFormed(k) && SameLists(g, k) && SameModes(g, k)
  {
    RehintedTree(h, focus, c);
    var k := Rehinted(h, focus, c);
    ReflaggedLists(h, k);
    ListsTrans(g, h, k);
    ModesTrans(g, h, k);
  }

  /** Focus and hints leave the lists and the modes alone. */
  lemma SettledLists(g: Forest, r: Con?, focus: Con, a: Con, b: Con)
    requires WellFormed(g) && FloatsOnWorkspaces(g) && (r != null ==> r in g) && a in g && b in g
    ensures var k := BothRehinted(Refocus(g, r), focus, a, b); SameLists(g, k) && SameModes(g, k)
  {
    var h := Refocus(g, r);
    RefocusLists(g, r);
    HintLists(g, h, focus, a);
    HintLists(g, Rehinted(h, focus, a), focus, b);
  }

  // ---------------------------------------------------------------- the places after the exchange

  lemma {:induction false} OuterWorkspace(f: Forest, a: Con, b: Con, x: Con)
    requires CanSwap(f, a, b) && x in f && !Inside(f, x, a) && !Inside(f, x, b)
    ensures WellFormed(Swap(f, a, b)) && WorkspaceOf(Swap(f, a, b), x) == WorkspaceOf(f, x)
    decreases Depths(f)[x]
  {
    SwapKeeps(f, a, b);
    SwapAttached(f, a, b, x);
    if f[x].ty != Workspace && Attached(f, x) {
      InsideUnfolds(f, x, a);
      InsideUnfolds(f, x, b);
      OuterWorkspace(f, a, b, f[x].parent);
    }
  }

  /** `a` is where `b` was. */
  lemma InPlace(f: Forest, a: Con, b: Con)
    requires CanSwap(f, a, b)
    ensures WellFormed(Swap(f, a, b)) && Level(Swap(f, a, b), a) == Level(f, b)
    ensures WorkspaceOf(Swap(f, a, b), a) == WorkspaceOf(f, b)
  {
    SwapKeeps(f, a, b);
    ParentOutside(f, a, b);
    OuterLine(f, a, b, f[b].parent);
    OuterWorkspace(f, a, b, f[b].parent);
  }

  /** What both were strictly inside of still has the same containers inside. */
  lemma AroundBoth(f: Forest, a: Con, b: Con, q: Con, x: Con)
    requires CanSwap(f, a, b) && q in f && x in f && StrictlyInside(f, a, q) && StrictlyInside(f, b, q)
    ensures WellFormed(Swap(f, a, b)) && (StrictlyInside(Swap(f, a, b), x, q) <==> StrictlyInside(f, x, q))
  {
    SwapKeeps(f, a, b);
    if Inside(f, x, a) {
      InnerLine(f, a, b, x, q);
      InsideTrans(f, x, a, q);
    } else if Inside(f, x, b) {
      SwapSymmetric(f, a, b);
      InnerLine(f, b, a, x, q);
      InsideTrans(f, x, b, q);
    } else {
      OuterLine(f, a, b, x);
    }
  }

  lemma AtPlace(f: Forest, a: Con, b: Con, q: Con)
    requires CanSwap(f, a, b) && q in f
    ensures WellFormed(Swap(f, a, b)) && (StrictlyInside(Swap(f, a, b), a, q) <==> StrictlyInside(f, b, q))
  {
    InnerLine(f, a, b, a, q);
    TopOnly(f, a, q);
  }

  // ---------------------------------------------------------------- the state on the way

  /** Two containers that con_swap does not refuse, below the root and each on a
    * workspace. */
  ghost predicate Swappable(s: State, root: Con, a: Con, b: Con) {
    CanSwap(s.tree, a, b) && Ready(s, root, a, b)
  }

  /** After the exchange, with the focus to come. */
  ghost function Traded(s: State, a: Con, b: Con): State
    requires Sound(s) && CanSwap(s.tree, a, b)
  {
    State(Swap(s.tree, a, b), NewFocus(s.tree, s.focused, a, b))
  }

  /** After the focus and the hints. */
  ghost function Resettled(s: State, a: Con, b: Con): State
    requires Sound(s) && CanSwap(s.tree, a, b)
  {
    State(SwapFully(s.tree, s.focused, a, b), NewFocus(s.tree, s.focused, a, b))
  }

  lemma TradedSound(s: State, a: Con, b: Con)
    requires Sound(s) && CanSwap(s.tree, a, b)
    ensures Sound(Traded(s, a, b))
  {
    SwapProper(s.tree, a, b);
    SwapFocusOps.RestoredAttached(s.tree, s.focused, a, b);
    SwapFocusOps.StaysAttached(s.tree, a, b, s.focused);
  }

  lemma TradedAt(f: Forest, root: Con, a: Con, b: Con)
    requires CanSwap(f, a, b) && root in f && Enabling(f, b) && StrictlyInside(f, b, root)
    ensures WellFormed(Swap(f, a, b)) && Enabling(Swap(f, a, b), a) && StrictlyInside(Swap(f, a, b), a, root)
  {
    InPlace(f, a, b);
    AtPlace(f, a, b, root);
  }

  lemma TradedReady(s: State, root: Con, a: Con, b: Con)
    requires Swappable(s, root, a, b)
    ensures Ready(Traded(s, a, b), root, a, b)
  {
    TradedSound(s, a, b);
    TradedAt(s.tree, root, a, b);
    SwapSymmetric(s.tree, a, b);
    TradedAt(s.tree, root, b, a);
  }

  lemma TradedMode(f: Forest, g: Forest, a: Con, b: Con, x: Con)
    requires a in f && b in f && x in f && g == Swap(f, a, b)
    ensures g[x].ty == f[x].ty && g[x].fullscreen == f[x].fullscreen
  {
  }

  /** `g` is the exchange of two containers below the root. */
  ghost predicate TradedBelow(f: Forest, g: Forest, root: Con, a: Con, b: Con) {
    && CanSwap(f, a, b) && root in f && StrictlyInside(f, a, root) && StrictlyInside(f, b, root)
    && WellFormed(g) && g == Swap(f, a, b)
  }

  /** `x` is met alike by searches for global containers. */
  ghost predicate MetAlike(f: Forest, g: Forest, root: Con, x: Con)
    requires Acyclic(f) && Acyclic(g) && x in f && x in g
  {
    g[x].ty == f[x].ty && (Hit(g, root, Global, x) <==> Hit(f, root, Global, x))
  }

  lemma TradedHit(f: Forest, g: Forest, root: Con, a: Con, b: Con, x: Con)
    requires TradedBelow(f, g, root, a, b) && x in f
    ensures MetAlike(f, g, root, x)
  {
    AroundBoth(f, a, b, root, x);
    TradedMode(f, g, a, b, x);
  }

  ghost predicate SameHits(f: Forest, g: Forest, root: Con) {
    && Acyclic(f) && Acyclic(g) && g.Keys == f.Keys
    && forall x :: x in f ==> MetAlike(f, g, root, x)
  }

  lemma SameHitsGlobal(f: Forest, g: Forest, root: Con)
    requires SameHits(f, g, root) && OneGlobal(f, root)
    ensures OneGlobal(g, root)
  {
    forall x, y | x in g && y in g && Hit(g, root, Global, x) && Hit(g, root, Global, y) ensures x == y {
      assert MetAlike(f, g, root, x) && MetAlike(f, g, root, y);
    }
    forall x | x in g && Hit(g, root, Global, x) ensures g[x].ty != Workspace {
      assert MetAlike(f, g, root, x);
    }
  }

  lemma TradedHits(f: Forest, g: Forest, root: Con, a: Con, b: Con)
    requires TradedBelow(f, g, root, a, b)
    ensures SameHits(f, g, root)
  {
    forall x | x in f ensures MetAlike(f, g, root, x) {
      TradedHit(f, g, root, a, b, x);
    }
  }

  /** Between the exchange and the modes nobody moves. */
  lemma ResettledLists(s: State, a: Con, b: Con)
    requires Sound(s) && CanSwap(s.tree, a, b)
    ensures Sound(Traded(s, a, b)) && Sound(Resettled(s, a, b))
    ensures SameLists(Traded(s, a, b).tree, Resettled(s, a, b).tree) &&
            SameModes(Traded(s, a, b).tree, Resettled(s, a, b).tree)
  {
    TradedSound(s, a, b);
    var g := Traded(s, a, b);
    SettledLists(g.tree, Restored(s.tree, s.focused, a, b), g.focused, a, b);
    SoundKept(g, Resettled(s, a, b));
  }

  /** What is in `a` stays on the workspace, when `b` is on it too. */
  lemma {:induction false} InnerWorkspace(f: Forest, a: Con, b: Con, x: Con)
    requires CanSwap(f, a, b) && x in f && Inside(f, x, a)
    requires WorkspaceOf(f, x) == WorkspaceOf(f, a) == WorkspaceOf(f, b)
    ensures WellFormed(Swap(f, a, b)) && WorkspaceOf(Swap(f, a, b), x) == WorkspaceOf(f, x)
    decreases Depths(f)[x]
  {
    InPlace(f, a, b);
    if x != a {
      if Inside(f, x, b) { AncestorsCompare(f, x, a, b); }
      if f[x].ty == Workspace {
        TopOnly(f, a, x);
      } else {
        SwapAttached(f, a, b, x);
        InsideUnfolds(f, x, a);
        InnerWorkspace(f, a, b, f[x].parent);
      }
    }
  }

  /** All on one workspace: whatever `x` is in, it is still on it. */
  lemma SharedWorkspace(f: Forest, a: Con, b: Con, x: Con)
    requires CanSwap(f, a, b) && x in f && WorkspaceOf(f, x) == WorkspaceOf(f, a) == WorkspaceOf(f, b)
    ensures WellFormed(Swap(f, a, b)) && WorkspaceOf(Swap(f, a, b), x) == WorkspaceOf(f, x)
  {
    if Inside(f, x, a) {
      InnerWorkspace(f, a, b, x);
    } else if Inside(f, x, b) {
      SwapSymmetric(f, a, b);
      InnerWorkspace(f, b, a, x);
    } else {
      OuterWorkspace(f, a, b, x);
    }
  }

  /** The place of `c` is `d`'s now: below the same parent, at the same index. */
  ghost predicate TakesPlace(f: Forest, h: Forest, c: Con, d: Con) {
    && c in f && d in h && f[c].parent != null && f[c].parent in f && h[d].parent == f[c].parent && f[c].parent in h
    && var s, t := f[f[c].parent].nodes, h[f[c].parent].nodes;
       |t| == |s| && c in s && forall i :: 0 <= i < |s| && s[i] == c ==> t[i] == d
  }

  lemma TradedPlace(f: Forest, h: Forest, a: Con, b: Con)
    requires CanSwap(f, a, b) && SameLists(Swap(f, a, b), h)
    ensures TakesPlace(f, h, a, b)
  {
    var p: Con, g := f[a].parent, Swap(f, a, b);
    assert EdgeAgrees(f, p, a) && h[p].nodes == g[p].nodes;
    SwapKeeps(f, a, b);
    assert Attached(h, b) == Attached(g, b);
  }

  /** The tree and the focus after the urgency calls.  The focus is put back: it
    * stays what it was if all is on one workspace or neither container has it,
    * and else goes to the container that has come to the place of the one with
    * the focus in it. */
  lemma FocusAfterSwap(s: State, a: Con, b: Con)
    requires Sound(s) && CanSwap(s.tree, a, b)
    ensures var f, t := s.tree, Resettled(s, a, b);
            var shared := WorkspaceOf(f, a) == WorkspaceOf(f, b) == WorkspaceOf(f, s.focused);
            && (shared || (!Inside(f, s.focused, a) && !Inside(f, s.focused, b)) ==> t.focused == s.focused)
            && (!shared && Inside(f, s.focused, a) ==> t.focused == b && TakesPlace(f, t.tree, a, b))
            && (!shared && Inside(f, s.focused, b) ==> t.focused == a && TakesPlace(f, t.tree, b, a))
  {
    ResettledLists(s, a, b);
    TradedPlace(s.tree, Resettled(s, a, b).tree, a, b);
    SwapSymmetric(s.tree, a, b);
    TradedPlace(s.tree, Resettled(s, a, b).tree, b, a);
    if Inside(s.tree, s.focused, a) && Inside(s.tree, s.focused, b) { AncestorsCompare(s.tree, s.focused, a, b); }
  }

  lemma TradedFocus(s: State, a: Con, b: Con)
    requires Sound(s) && CanSwap(s.tree, a, b)
    ensures Sound(Traded(s, a, b)) && var f, t := s.tree, Traded(s, a, b);
            WorkspaceOf(t.tree, t.focused) == WorkspaceOf(f, s.focused) <==>
            (Inside(f, s.focused, a) ==> WorkspaceOf(f, a) == WorkspaceOf(f, s.focused)) &&
            (Inside(f, s.focused, b) ==> WorkspaceOf(f, b) == WorkspaceOf(f, s.focused))
  {
    var f, x := s.tree, s.focused;
    TradedSound(s, a, b);
    InPlace(f, a, b);
    SwapSymmetric(f, a, b);
    InPlace(f, b, a);
    if Inside(f, x, a) && Inside(f, x, b) { AncestorsCompare(f, x, a, b); }
    if WorkspaceOf(f, a) == WorkspaceOf(f, b) == WorkspaceOf(f, x) {
      SharedWorkspace(f, a, b, x);
    } else if !Inside(f, x, a) && !Inside(f, x, b) {
      OuterWorkspace(f, a, b, x);
    }
  }

  /** So the workspace with the focus is the one from before, but where a swapped
    * container holds a workspace of its own with the focus on it. */
  lemma FocusKeepsWorkspace(s: State, a: Con, b: Con)
    requires Sound(s) && CanSwap(s.tree, a, b)
    ensures Sound(Resettled(s, a, b)) && var f, t := s.tree, Resettled(s, a, b);
            WorkspaceOf(t.tree, t.focused) == WorkspaceOf(f, s.focused) <==>
            (Inside(f, s.focused, a) ==> WorkspaceOf(f, a) == WorkspaceOf(f, s.focused)) &&
            (Inside(f, s.focused, b) ==> WorkspaceOf(f, b) == WorkspaceOf(f, s.focused))
  {
    ResettledLists(s, a, b);
    TradedFocus(s, a, b);
    var g, h := Traded(s, a, b), Resettled(s, a, b);
    AncestryWorkspace(g.tree, h.tree, h.focused);
  }

  lemma {:induction false} SameWorkspaceInside(f: Forest, x: Con, a: Con)
    requires Acyclic(f) && x in f && a in f && Inside(f, x, a) && Tracked(f, a)
    ensures WorkspaceOf(f, x) == WorkspaceOf(f, a)
    decreases Depths(f)[x]
  {
    assert !Boundary(f[x]);
    if x != a {
      InsideUnfolds(f, x, a);
      SameWorkspaceInside(f, f[x].parent, a);
    }
  }

  /** Windows and splits hold none: there it always is. */
  lemma FocusStaysOnWorkspace(s: State, a: Con, b: Con)
    requires Sound(s) && CanSwap(s.tree, a, b) && Tracked(s.tree, a) && Tracked(s.tree, b)
    ensures Sound(Resettled(s, a, b))
    ensures WorkspaceOf(Resettled(s, a, b).tree, Resettled(s, a, b).focused) == WorkspaceOf(s.tree, s.focused)
  {
    if Inside(s.tree, s.focused, a) { SameWorkspaceInside(s.tree, s.focused, a); }
    if Inside(s.tree, s.focused, b) { SameWorkspaceInside(s.tree, s.focused, b); }
    FocusKeepsWorkspace(s, a, b);
  }

  lemma ResettledReady(s: State, root: Con, a: Con, b: Con)
    requires Swappable(s, root, a, b)
    ensures Ready(Resettled(s, a, b), root, a, b) && Resettled(s, a, b).tree[b].ty == Plain
    ensures OneGlobal(s.tree, root) ==> OneGlobal(Resettled(s, a, b).tree, root)
  {
    var g, h := Traded(s, a, b), Resettled(s, a, b);
    ResettledLists(s, a, b);
    TradedReady(s, root, a, b);
    ReadyKept(g, h, root, a, b);
    assert Attached(h.tree, b) == Attached(g.tree, b);
    if OneGlobal(s.tree, root) {
      TradedHits(s.tree, g.tree, root, a, b);
      SameHitsGlobal(s.tree, g.tree, root);
      WindowsGlobal(g.tree, h.tree, root);
    }
  }

  // ---------------------------------------------------------------- who is met first

  lemma SameHitAt(f: Forest, g: Forest, s: seq<Con>, ws: Con, b: Con, i: int)
    requires WellFormed(f) && SameLists(f, g) && SameModes(f, g) && forall x :: x in s ==> x in f
    ensures HitAt(g, s, ws, OnOutput, b, i) <==> HitAt(f, s, ws, OnOutput, b, i)
  {
    forall j | 0 <= j < |s| ensures Hit(g, ws, OnOutput, s[j]) <==> Hit(f, ws, OnOutput, s[j]) {
      assert s[j] in s;
      ShapeHit(f, g, ws, OnOutput, s[j]);
      assert g[s[j]].fullscreen == f[s[j]].fullscreen;
    }
  }

  /** What a search meets first is told by the lists and the modes. */
  lemma SameMet(f: Forest, g: Forest, a: Con, b: Con)
    requires WellFormed(f) && SameLists(f, g) && SameModes(f, g) && a in f && b in f && WorkspaceOf(f, a) != null
    ensures WorkspaceOf(g, a) == WorkspaceOf(f, a) && (MetFirst(g, a, b) <==> MetFirst(f, a, b))
  {
    AncestryWorkspace(f, g, a);
    AncestryLine(f, g, b);
    var ws: Con := WorkspaceOf(f, a);
    var s := BreadthFirst(f, ws);
    ListsChildren(f, g);
    SameOrder(f, g, ws);
    BreadthFirstOrder(f, ws);
    forall i ensures HitAt(g, s, ws, OnOutput, b, i) <==> HitAt(f, s, ws, OnOutput, b, i) {
      SameHitAt(f, g, s, ws, b, i);
    }
  }

  lemma ModesAround(f: Forest, g: Forest, h: Forest, k: Forest)
    requires SameModes(f, g) && SameModes(f, h) && SameModes(g, k)
    ensures SameModes(h, k)
  {
    forall x | x in h ensures k[x].fullscreen == h[x].fullscreen {
      assert k[x].fullscreen == g[x].fullscreen && g[x].fullscreen == f[x].fullscreen &&
             h[x].fullscreen == f[x].fullscreen;
    }
  }

  lemma RaisedMet(s: State, t: State, a: Con, b: Con)
    requires Sound(s) && Sound(t) && SameLists(s.tree, t.tree) && SameModes(s.tree, t.tree) && t.focused == s.focused
    requires a in s.tree && b in s.tree && WorkspaceOf(RaisedFor(s, b), a) != null
    ensures WorkspaceOf(RaisedFor(t, b), a) == WorkspaceOf(RaisedFor(s, b), a)
    ensures MetFirst(RaisedFor(t, b), a, b) <==> MetFirst(RaisedFor(s, b), a, b)
  {
    RaisedForLists(s, t, b);
    RaisedForModes(s, b);
    RaisedForModes(t, b);
    ModesAround(s.tree, t.tree, RaisedFor(s, b), RaisedFor(t, b));
    SameMet(RaisedFor(s, b), RaisedFor(t, b), a, b);
  }

  lemma SameLoses(s: State, t: State, root: Con, a: Con, b: Con)
    requires Ready(s, root, a, b) && Ready(t, root, a, b) && SameLists(s.tree, t.tree) && SameModes(s.tree, t.tree) &&
             t.focused == s.focused
    ensures Loses(t, root, a, b) <==> Loses(s, root, a, b)
  {
    assert t.tree[a].fullscreen == s.tree[a].fullscreen && t.tree[b].fullscreen == s.tree[b].fullscreen;
    if s.tree[a].fullscreen == OnOutput && s.tree[b].fullscreen == Global {
      RaisedReady(s, root, a, b);
      RaisedMet(s, t, a, b);
    }
  }

  /** The less deep one is. */
  lemma MetLevels(f: Forest, a: Con, b: Con)
    requires WellFormed(f) && a in f && b in f && WorkspaceOf(f, a) != null && StrictlyInside(f, b, WorkspaceOf(f, a))
    ensures MetFirst(f, a, b) ==>
            forall y :: y in f && Hit(f, WorkspaceOf(f, a), OnOutput, y) ==> Level(f, b) <= Level(f, y)
    ensures (forall y :: y in f && Hit(f, WorkspaceOf(f, a), OnOutput, y) ==> Level(f, b) < Level(f, y)) ==>
            MetFirst(f, a, b)
  {
    var ws: Con := WorkspaceOf(f, a);
    var s := BreadthFirst(f, ws);
    BreadthFirstOrder(f, ws);
    if MetFirst(f, a, b) {
      var i :| HitAt(f, s, ws, OnOutput, b, i);
      forall y | y in f && Hit(f, ws, OnOutput, y) ensures Level(f, b) <= Level(f, y) {
        assert IndexOf(s, y) >= i;
      }
    }
    if forall y :: y in f && Hit(f, ws, OnOutput, y) ==> Level(f, b) < Level(f, y) {
      var i := IndexOf(s, b);
      forall j | 0 <= j < i ensures !Hit(f, ws, OnOutput, s[j]) {
        assert Level(f, s[j]) <= Level(f, s[i]);
      }
      assert HitAt(f, s, ws, OnOutput, b, i);
    }
  }

  // ---------------------------------------------------------------- con_swap

  /** con_swap, when it does not refuse. */
  ghost function SwapEntirely(s: State, root: Con, a: Con, b: Con, delayed: bool): State
    requires Swappable(s, root, a, b)
  {
    ResettledReady(s, root, a, b);
    ExchangedModes(Resettled(s, a, b), root, a, b, delayed)
  }

  /** Told of the state before con_swap: the first container is global and the
    * second on its output; or the other way round, and where they come to, a
    * search of the first one's workspace meets the second before any that is
    * fullscreen there, once the floating container that then is around the
    * second has been put on top. */
  ghost predicate SwapLoses(s: State, root: Con, a: Con, b: Con)
    requires Swappable(s, root, a, b)
  {
    TradedReady(s, root, a, b);
    Loses(Traded(s, a, b), root, a, b)
  }

  /** con_swap exchanges the fullscreen modes, unless the call that enables the
    * first container turns off what was just turned on for the second. */
  lemma SwapExchangesModes(s: State, root: Con, a: Con, b: Con, delayed: bool)
    requires Swappable(s, root, a, b) && OneGlobal(s.tree, root)
    ensures var t := SwapEntirely(s, root, a, b, delayed).tree;
            && a in t && b in t && t[a].fullscreen == s.tree[b].fullscreen
            && t[b].fullscreen == if SwapLoses(s, root, a, b) then NotFullscreen else s.tree[a].fullscreen
  {
    var g, h := Traded(s, a, b), Resettled(s, a, b);
    TradedReady(s, root, a, b);
    ResettledLists(s, a, b);
    ResettledReady(s, root, a, b);
    SameLoses(g, h, root, a, b);
    ModesExchanged(h, root, a, b, delayed);
    assert h.tree[a].fullscreen == g.tree[a].fullscreen && h.tree[b].fullscreen == g.tree[b].fullscreen;
  }

  /** con_swap keeps the tree with the focus in it and at most one global
    * container; the modes leave flags exact that were so before them. */
  lemma SwapKept(s: State, root: Con, a: Con, b: Con, delayed: bool)
    requires Swappable(s, root, a, b) && OneGlobal(s.tree, root)
    ensures WellFormed(Resettled(s, a, b).tree) && Kept(Resettled(s, a, b), SwapEntirely(s, root, a, b, delayed), root)
  {
    ResettledReady(s, root, a, b);
    ModesExchanged(Resettled(s, a, b), root, a, b, delayed);
  }

  lemma KeptSound(s: State, t: State, root: Con)
    requires Acyclic(s.tree) && Kept(s, t, root) && root in s.tree
    ensures Sound(t) && OneGlobal(t.tree, root) && root in t.tree
  {
  }

  lemma SwapGood(s: State, root: Con, a: Con, b: Con, delayed: bool)
    requires Swappable(s, root, a, b) && OneGlobal(s.tree, root)
    ensures var t := SwapEntirely(s, root, a, b, delayed); Sound(t) && OneGlobal(t.tree, root) && root in t.tree
  {
    SwapKept(s, root, a, b, delayed);
    ResettledReady(s, root, a, b);
    KeptSound(Resettled(s, a, b), SwapEntirely(s, root, a, b, delayed), root);
  }

  /** It keeps every flag exact, when the hints arrive. */
  lemma SwapKeepsExact(s: State, root: Con, a: Con, b: Con, delayed: bool)
    requires Swappable(s, root, a, b) && OneGlobal(s.tree, root) && Exact(s.tree) && Tracked(s.tree, a) &&
             Tracked(s.tree, b)
    requires var focus := NewFocus(s.tree, s.focused, a, b);
             Arrives(s.tree, focus, a, b) && Arrives(s.tree, focus, b, a)
    ensures Sound(SwapEntirely(s, root, a, b, delayed)) && Exact(SwapEntirely(s, root, a, b, delayed).tree)
  {
    SwapFlags(s.tree, s.focused, a, b);
    SwapKept(s, root, a, b, delayed);
  }

  /** After all of con_swap each of the two stands where the other one stood. */
  lemma SwapPlaces(s: State, root: Con, a: Con, b: Con, delayed: bool)
    requires Swappable(s, root, a, b)
    ensures var h := SwapEntirely(s, root, a, b, delayed).tree;
            TakesPlace(s.tree, h, a, b) && TakesPlace(s.tree, h, b, a)
  {
    var g := Resettled(s, a, b);
    ResettledReady(s, root, a, b);
    ResettledLists(s, a, b);
    TradedPlace(s.tree, g.tree, a, b);
    SwapSymmetric(s.tree, a, b);
    TradedPlace(s.tree, g.tree, b, a);
    ExchangedShape(g, root, a, b, delayed);
    var h := SwapEntirely(s, root, a, b, delayed).tree;
    assert Attached(h, a) == Attached(g.tree, a) && Attached(h, b) == Attached(g.tree, b);
  }

  lemma ResettledModes(s: State, a: Con, b: Con)
    requires Sound(s) && CanSwap(s.tree, a, b)
    ensures var h := Resettled(s, a, b).tree;
            && a in h && b in h && h[a].fullscreen == s.tree[a].fullscreen && h[b].fullscreen == s.tree[b].fullscreen
  {
    ResettledLists(s, a, b);
    TradedMode(s.tree, Traded(s, a, b).tree, a, b, a);
    TradedMode(s.tree, Traded(s, a, b).tree, a, b, b);
  }

  /** The focus after all of con_swap: with equal modes it is where FocusAfterSwap
    * tells; otherwise the second container can draw it as it gets the first one's
    * mode, and then the first one as it gets the second's. */
  lemma FocusAfterModes(s: State, root: Con, a: Con, b: Con, delayed: bool)
    requires Swappable(s, root, a, b)
    ensures Ready(Resettled(s, a, b), root, a, b)
    ensures var h, m1, m2 := Resettled(s, a, b), s.tree[a].fullscreen, s.tree[b].fullscreen;
            var between := if m1 != m2 && Draws(h.tree, h.focused, b, m1) then b else h.focused;
            SwapEntirely(s, root, a, b, delayed).focused ==
            if m1 != m2 && Draws(h.tree, between, a, m2) then a else between
  {
    ResettledReady(s, root, a, b);
    ResettledModes(s, a, b);
    ExchangedFocus(Resettled(s, a, b), root, a, b, delayed);
  }

  /** So unless one of the two is global, the workspace with the focus stays that,
    * on the same terms. */
  lemma SwapKeepsWorkspace(s: State, root: Con, a: Con, b: Con, delayed: bool)
    requires Swappable(s, root, a, b) && s.tree[a].fullscreen != Global && s.tree[b].fullscreen != Global
    ensures Sound(SwapEntirely(s, root, a, b, delayed)) && var f, t := s.tree, SwapEntirely(s, root, a, b, delayed);
            WorkspaceOf(t.tree, t.focused) == WorkspaceOf(f, s.focused) <==>
            (Inside(f, s.focused, a) ==> WorkspaceOf(f, a) == WorkspaceOf(f, s.focused)) &&
            (Inside(f, s.focused, b) ==> WorkspaceOf(f, b) == WorkspaceOf(f, s.focused))
  {
    var h, t := Resettled(s, a, b), SwapEntirely(s, root, a, b, delayed);
    FocusKeepsWorkspace(s, a, b);
    FocusAfterModes(s, root, a, b, delayed);
    ResettledReady(s, root, a, b);
    ExchangedShape(h, root, a, b, delayed);
    AncestryWorkspace(h.tree, t.tree, t.focused);
  }

  method ConSwap(first: Con, second: Con, root: Con, delayed: bool, session: FocusOps.Session, ghost cons: set<Con>)
    returns (ok: bool)
    requires session.focused in cons && Ready(State(View(cons), session.focused), root, first, second)
    modifies first, second, first.parent, second.parent
    modifies session`focused, cons`focus, cons`urgent, cons`urgencyTimer, cons`floats, cons`fullscreen
    ensures session.focused in cons
    ensures ok <==> CanSwap(old(View(cons)), first, second)
    ensures !ok ==> View(cons) == old(View(cons)) && session.focused == old(session.focused)
    ensures ok ==> State(View(cons), session.focused)
                   == SwapEntirely(old(State(View(cons), session.focused)), root, first, second, delayed)
  {
    ghost var s := State(View(cons), session.focused);
    EnablingAttached(s.tree, first);
    EnablingAttached(s.tree, second);
    ok := SwapFocusOps.ConSwap(first, second, session, cons);
    if ok {
      ResettledReady(s, root, first, second);
      ghost var h := Resettled(s, first, second);
      assert View(cons) == h.tree && session.focused == h.focused;
      ExchangeModes(first, second, root, delayed, session, cons);
    }
  }
}
