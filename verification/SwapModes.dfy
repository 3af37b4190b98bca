/** The end of con_swap: the two containers exchange their fullscreen modes by
  * calling the functions that enable and disable them. */
module SwapModes {
  import opened Order
  import opened Containers
  import opened Urgency
  import opened FullscreenSearch
  import opened Workspaces
  import opened Activation
  import opened Fullscreen
  import FocusOps

  /** con_enable_fullscreen or con_disable_fullscreen, as the mode asks for. */
  ghost function Pass(s: State, root: Con, c: Con, mode: FullscreenMode, delayed: bool): State
    requires Sound(s) && root in s.tree && Enabling(s.tree, c)
  {
    if mode == NotFullscreen then TurnOff(s, c) else Enable(s, root, c, mode, delayed)
  }

  /** What it turns off besides. */
  ghost function PassOff(f: Forest, root: Con, c: Con, mode: FullscreenMode): Con?
    requires WellFormed(f) && root in f && Enabling(f, c)
  {
    if mode == NotFullscreen || f[c].fullscreen == mode then null else InTheWay(f, root, c)
  }

  lemma DisableTurns(f: Forest, g: Forest, c: Con)
    requires c in f && f[c].ty != Workspace && g == Disable(f, c) && SameShape(f, g)
    ensures Turns(f, g, null, c, NotFullscreen)
  {
  }

  lemma TurnOffEffect(s: State, c: Con)
    requires Sound(s) && c in s.tree && s.tree[c].ty != Workspace
    ensures Sound(TurnOff(s, c)) && Turns(s.tree, TurnOff(s, c).tree, null, c, NotFullscreen)
  {
    WithModeKeeps(s, c, NotFullscreen);
    DisableTurns(s.tree, Disable(s.tree, c), c);
  }

  lemma PassEffect(s: State, root: Con, c: Con, mode: FullscreenMode, delayed: bool)
    requires Sound(s) && root in s.tree && Enabling(s.tree, c)
    ensures var t := Pass(s, root, c, mode, delayed);
            Sound(t) && Turns(s.tree, t.tree, PassOff(s.tree, root, c, mode), c, mode)
  {
    if mode == NotFullscreen {
      TurnOffEffect(s, c);
    } else if s.tree[c].fullscreen == mode {
      SoundKept(s, s);
    } else {
      TurnedEffect(s, InTheWay(s.tree, root, c), c, mode, delayed);
    }
  }

  lemma PassKeeps(s: State, root: Con, c: Con, mode: FullscreenMode, delayed: bool)
    requires Sound(s) && root in s.tree && Enabling(s.tree, c) && OneGlobal(s.tree, root)
    ensures Kept(s, Pass(s, root, c, mode, delayed), root)
  {
    if mode == NotFullscreen {
      TurnOffKeeps(s, root, c);
    } else {
      EnableKeeps(s, root, c, mode, delayed);
    }
  }

  /** Two containers below the root, each on a workspace. */
  ghost predicate Ready(s: State, root: Con, a: Con, b: Con) {
    && Sound(s) && root in s.tree && Enabling(s.tree, a) && Enabling(s.tree, b) && a != b
    && StrictlyInside(s.tree, a, root) && StrictlyInside(s.tree, b, root)
  }

  lemma ReadyKept(s: State, t: State, root: Con, a: Con, b: Con)
    requires Ready(s, root, a, b) && Sound(t) && SameShape(s.tree, t.tree)
    ensures Ready(t, root, a, b) && WorkspaceOf(t.tree, a) == WorkspaceOf(s.tree, a)
  {
    forall x | x == a || x == b
      ensures t.tree[x].ty == s.tree[x].ty && WorkspaceOf(t.tree, x) == WorkspaceOf(s.tree, x) &&
              Line(t.tree, x) == Line(s.tree, x)
    {
      AncestryWorkspace(s.tree, t.tree, x);
      AncestryLine(s.tree, t.tree, x);
      assert Attached(t.tree, x) == Attached(s.tree, x);
    }
  }

  ghost function FirstPass(s: State, root: Con, a: Con, b: Con, delayed: bool): State
    requires Ready(s, root, a, b)
  {
    Pass(s, root, b, s.tree[a].fullscreen, delayed)
  }

  lemma FirstPassReady(s: State, root: Con, a: Con, b: Con, delayed: bool)
    requires Ready(s, root, a, b)
    ensures var t := FirstPass(s, root, a, b, delayed);
            Ready(t, root, a, b) && WorkspaceOf(t.tree, a) == WorkspaceOf(s.tree, a)
  {
    PassEffect(s, root, b, s.tree[a].fullscreen, delayed);
    ReadyKept(s, FirstPass(s, root, a, b, delayed), root, a, b);
  }

  /** The second container gets its new mode first, then the first one. */
  ghost function ExchangedModes(s: State, root: Con, a: Con, b: Con, delayed: bool): State
    requires Ready(s, root, a, b)
  {
    FirstPassReady(s, root, a, b, delayed);
    Pass(FirstPass(s, root, a, b, delayed), root, a, s.tree[b].fullscreen, delayed)
  }

  // ---------------------------------------------------------------- who is in the way

  /** A search for containers fullscreen on `a`'s workspace meets `b` before any. */
  ghost predicate MetFirst(f: Forest, a: Con, b: Con)
    requires WellFormed(f) && a in f && b in f && WorkspaceOf(f, a) != null
  {
    var ws: Con := WorkspaceOf(f, a);
    StrictlyInside(f, b, ws) && exists i :: HitAt(f, BreadthFirst(f, ws), ws, OnOutput, b, i)
  }

  lemma RaisedReady(s: State, root: Con, a: Con, b: Con)
    requires Ready(s, root, a, b)
    ensures a in RaisedFor(s, b) && b in RaisedFor(s, b) && WorkspaceOf(RaisedFor(s, b), a) == WorkspaceOf(s.tree, a)
  {
    AncestryWorkspace(s.tree, RaisedFor(s, b), a);
  }

  /** The mode that `a` passes to `b` does not last: enabling `a` turns `b` off.
    * By then `b` has been activated, which raised the floating container around
    * it. */
  ghost predicate Loses(s: State, root: Con, a: Con, b: Con)
    requires Ready(s, root, a, b)
  {
    RaisedReady(s, root, a, b);
    || (s.tree[a].fullscreen == Global && s.tree[b].fullscreen == OnOutput)
    || (s.tree[a].fullscreen == OnOutput && s.tree[b].fullscreen == Global && MetFirst(RaisedFor(s, b), a, b))
  }

  lemma GlobalInTheWay(f: Forest, root: Con, c: Con, x: Con)
    requires WellFormed(f) && root in f && Enabling(f, c) && OneGlobal(f, root) && x in f && Hit(f, root, Global, x)
    ensures InTheWay(f, root, c) == x
  {
  }

  /** A global first container: enabling the second turns it off, and enabling it
    * on its output turns the second off. */
  lemma GlobalToOutput(f: Forest, k: Forest, root: Con, a: Con, b: Con)
    requires WellFormed(f) && root in f && Enabling(f, b) && OneGlobal(f, root) && a in f && a != b &&
             f[a].ty != Workspace
    requires StrictlyInside(f, a, root) && StrictlyInside(f, b, root) && f[a].fullscreen == Global &&
             f[b].fullscreen == OnOutput
    requires Turns(f, k, PassOff(f, root, b, Global), b, Global) && Enabling(k, a) && OneGlobal(k, root)
    ensures PassOff(k, root, a, OnOutput) == b
  {
    ShapeHit(f, f, root, Global, a);
    GlobalInTheWay(f, root, b, a);
    ShapeHit(f, k, root, Global, b);
    GlobalInTheWay(k, root, a, b);
    assert k[a].fullscreen == NotFullscreen;
  }

  /** `b` is turned over from global to its output. */
  ghost predicate Stepped(f: Forest, k: Forest, b: Con) {
    && SameShape(f, k) && b in f && f[b].fullscreen == Global && k[b].fullscreen == OnOutput
    && forall x {:trigger k[x].fullscreen} :: x in f && x != b ==> k[x].fullscreen == f[x].fullscreen
  }

  lemma SteppedNoGlobal(f: Forest, k: Forest, root: Con, b: Con)
    requires WellFormed(f) && OneGlobal(f, root) && Stepped(f, k, b) && StrictlyInside(f, b, root)
    ensures NoHit(k, root, Global)
  {
    assert Hit(f, root, Global, b);
    forall x | x in k ensures !Hit(k, root, Global, x) {
      ShapeHit(f, k, root, Global, x);
      assert Hit(f, root, Global, x) ==> x == b;
    }
  }

  /** After the first call, with a first container fullscreen on its output and a
    * global second one. */
  lemma OutputPassed(f: Forest, k: Forest, root: Con, b: Con)
    requires WellFormed(f) && root in f && Enabling(f, b) && OneGlobal(f, root) && StrictlyInside(f, b, root)
    requires f[b].fullscreen == Global && Turns(f, k, PassOff(f, root, b, OnOutput), b, OnOutput)
    ensures Stepped(f, k, b) && NoHit(k, root, Global)
  {
    ShapeHit(f, f, root, Global, b);
    GlobalInTheWay(f, root, b, b);
    SteppedNoGlobal(f, k, root, b);
  }

  /** What is met is told by the hits alone, `b` being one now. */
  lemma MetAt(f: Forest, k: Forest, s: seq<Con>, ws: Con, b: Con, i: int)
    requires Acyclic(f) && Acyclic(k) && b in f && !Hit(f, ws, OnOutput, b) && Hit(k, ws, OnOutput, b)
    requires forall x :: x in f && x != b ==> (Hit(k, ws, OnOutput, x) <==> Hit(f, ws, OnOutput, x))
    requires k.Keys == f.Keys && Distinct(s) && forall x :: x in s ==> x in f
    ensures HitAt(k, s, ws, OnOutput, b, i) <==> HitAt(f, s, ws, OnOutput, b, i)
  {
    if 0 <= i < |s| && s[i] == b {
      forall j | 0 <= j < i ensures Hit(k, ws, OnOutput, s[j]) <==> Hit(f, ws, OnOutput, s[j]) {
        assert s[j] in s;
      }
    }
  }

  lemma ListsChildren(f: Forest, g: Forest)
    requires SameLists(f, g)
    ensures SameChildren(f, g)
  {
    forall x | x in f ensures Children(g[x]) == Children(f[x]) {
      assert g[x].nodes == f[x].nodes && g[x].floats == f[x].floats;
    }
  }

  /** `r` has the lists of `k`, and the modes from before. */
  lemma FoundOnWorkspace(r: Forest, k: Forest, ws: Con, a: Con, b: Con, off: Con)
    requires WellFormed(r) && SameLists(r, k) && Stepped(r, k, b) && a in r && WorkspaceOf(r, a) == ws
    requires FirstHit(k, ws, OnOutput, off)
    ensures MetFirst(r, a, b) <==> off == b
  {
    var s := BreadthFirst(r, ws);
    ListsChildren(r, k);
    SameOrder(r, k, ws);
    BreadthFirstOrder(r, ws);
    ShapeHit(r, k, ws, OnOutput, b);
    if StrictlyInside(r, b, ws) {
      forall x | x in r && x != b ensures Hit(k, ws, OnOutput, x) <==> Hit(r, ws, OnOutput, x) {
        ShapeHit(r, k, ws, OnOutput, x);
      }
      forall i ensures HitAt(k, s, ws, OnOutput, b, i) <==> HitAt(r, s, ws, OnOutput, b, i) {
        MetAt(r, k, s, ws, b, i);
      }
      if MetFirst(r, a, b) {
        assert FirstHit(k, ws, OnOutput, b);
        FirstHitUnique(k, ws, OnOutput, b, off);
      }
    }
  }

  lemma RaisedForModes(s: State, c: Con)
    requires Sound(s) && c in s.tree
    ensures SameModes(s.tree, RaisedFor(s, c))
  {
    RaiseKeeps(s.tree, c);
    if Elsewhere(s, c) {
      RaiseKeeps(Raise(s.tree, c), s.focused);
      ModesTrans(s.tree, Raise(s.tree, c), RaisedFor(s, c));
    }
  }

  lemma SteppedFrom(f: Forest, r: Forest, k: Forest, b: Con)
    requires Stepped(f, k, b) && SameModes(f, r) && SameLists(r, k)
    ensures Stepped(r, k, b)
  {
    forall x | x in r && x != b ensures k[x].fullscreen == r[x].fullscreen {
      assert k[x].fullscreen == f[x].fullscreen && r[x].fullscreen == f[x].fullscreen;
    }
    assert r[b].fullscreen == f[b].fullscreen;
  }

  /** The state between the two calls, with a first container fullscreen on its
    * output and a global second one: `r` has its lists. */
  ghost predicate Between(r: Forest, k: Forest, root: Con, a: Con, b: Con) {
    && WellFormed(r) && WellFormed(k) && root in k && SameLists(r, k) && Stepped(r, k, b) && NoHit(k, root, Global)
    && a in r && Enabling(k, a) && k[a].fullscreen == OnOutput && WorkspaceOf(r, a) == WorkspaceOf(k, a)
  }

  lemma OutputBetween(s: State, root: Con, a: Con, b: Con, delayed: bool)
    requires Ready(s, root, a, b) && OneGlobal(s.tree, root) && s.tree[a].fullscreen == OnOutput &&
             s.tree[b].fullscreen == Global
    ensures Between(RaisedFor(s, b), FirstPass(s, root, a, b, delayed).tree, root, a, b)
  {
    RaisedReady(s, root, a, b);
    FirstPassReady(s, root, a, b, delayed);
    var k := FirstPass(s, root, a, b, delayed).tree;
    PassEffect(s, root, b, OnOutput, delayed);
    OutputPassed(s.tree, k, root, b);
    TurnedLists(s, InTheWay(s.tree, root, b), b, OnOutput, delayed);
    RaisedForModes(s, b);
    SteppedFrom(s.tree, RaisedFor(s, b), k, b);
    assert k[a].fullscreen == OnOutput;
  }

  lemma FoundBetween(r: Forest, k: Forest, root: Con, a: Con, b: Con)
    requires Between(r, k, root, a, b)
    ensures PassOff(k, root, a, Global) == b <==> MetFirst(r, a, b)
  {
    var ws: Con := WorkspaceOf(k, a);
    BelowWorkspace(k, a);
    assert Hit(k, ws, OnOutput, a);
    FoundOnWorkspace(r, k, ws, a, b, InTheWay(k, root, a));
  }

  /** What the second call turns off. */
  ghost function SecondOff(s: State, root: Con, a: Con, b: Con, delayed: bool): Con?
    requires Ready(s, root, a, b)
  {
    FirstPassReady(s, root, a, b, delayed);
    PassOff(FirstPass(s, root, a, b, delayed).tree, root, a, s.tree[b].fullscreen)
  }

  lemma PassKept(s: State, root: Con, a: Con, b: Con, delayed: bool)
    requires Ready(s, root, a, b) && OneGlobal(s.tree, root)
    ensures Kept(s, ExchangedModes(s, root, a, b, delayed), root)
  {
    var k := FirstPass(s, root, a, b, delayed);
    FirstPassReady(s, root, a, b, delayed);
    PassKeeps(s, root, b, s.tree[a].fullscreen, delayed);
    PassKeeps(k, root, a, s.tree[b].fullscreen, delayed);
    ShapeTrans(s.tree, k.tree, ExchangedModes(s, root, a, b, delayed).tree);
  }

  /** The first one gets the second's mode, and the second one keeps what it got
    * unless it is turned off again. */
  lemma BothPassed(s: State, root: Con, a: Con, b: Con, delayed: bool)
    requires Ready(s, root, a, b) && s.tree[b].ty == Plain
    ensures var t := ExchangedModes(s, root, a, b, delayed).tree;
            && a in t && b in t && t[a].fullscreen == s.tree[b].fullscreen
            && t[b].fullscreen == if SecondOff(s, root, a, b, delayed) == b then NotFullscreen else s.tree[a].fullscreen
  {
    var k := FirstPass(s, root, a, b, delayed);
    FirstPassReady(s, root, a, b, delayed);
    PassEffect(s, root, b, s.tree[a].fullscreen, delayed);
    PassEffect(k, root, a, s.tree[b].fullscreen, delayed);
  }

  lemma GlobalFirst(s: State, root: Con, a: Con, b: Con, delayed: bool)
    requires Ready(s, root, a, b) && OneGlobal(s.tree, root) && s.tree[a].fullscreen == Global &&
             s.tree[b].fullscreen == OnOutput
    ensures SecondOff(s, root, a, b, delayed) == b
  {
    FirstPassReady(s, root, a, b, delayed);
    PassEffect(s, root, b, Global, delayed);
    PassKeeps(s, root, b, Global, delayed);
    GlobalToOutput(s.tree, FirstPass(s, root, a, b, delayed).tree, root, a, b);
  }

  lemma OutputFirst(s: State, root: Con, a: Con, b: Con, delayed: bool)
    requires Ready(s, root, a, b) && OneGlobal(s.tree, root) && s.tree[a].fullscreen == OnOutput &&
             s.tree[b].fullscreen == Global
    ensures SecondOff(s, root, a, b, delayed) == b <==> Loses(s, root, a, b)
  {
    FirstPassReady(s, root, a, b, delayed);
    RaisedReady(s, root, a, b);
    OutputBetween(s, root, a, b, delayed);
    FoundBetween(RaisedFor(s, b), FirstPass(s, root, a, b, delayed).tree, root, a, b);
  }

  lemma NeitherFirst(s: State, root: Con, a: Con, b: Con, delayed: bool)
    requires Ready(s, root, a, b) && s.tree[b].ty == Plain
    requires var m1, m2 := s.tree[a].fullscreen, s.tree[b].fullscreen;
             m1 == NotFullscreen || m2 == NotFullscreen || m1 == m2
    ensures SecondOff(s, root, a, b, delayed) == b ==> s.tree[a].fullscreen == NotFullscreen
  {
    FirstPassReady(s, root, a, b, delayed);
    PassEffect(s, root, b, s.tree[a].fullscreen, delayed);
  }

  /** The modes are exchanged exactly, unless the second call turns off what the
    * first one turned on. */
  lemma ModesExchanged(s: State, root: Con, a: Con, b: Con, delayed: bool)
    requires Ready(s, root, a, b) && OneGlobal(s.tree, root) && s.tree[b].ty == Plain
    ensures Kept(s, ExchangedModes(s, root, a, b, delayed), root)
    ensures var t := ExchangedModes(s, root, a, b, delayed).tree;
            && a in t && b in t && t[a].fullscreen == s.tree[b].fullscreen
            && t[b].fullscreen == if Loses(s, root, a, b) then NotFullscreen else s.tree[a].fullscreen
  {
    PassKept(s, root, a, b, delayed);
    BothPassed(s, root, a, b, delayed);
    var m1, m2 := s.tree[a].fullscreen, s.tree[b].fullscreen;
    if m1 == Global && m2 == OnOutput {
      GlobalFirst(s, root, a, b, delayed);
    } else if m1 == OnOutput && m2 == Global {
      OutputFirst(s, root, a, b, delayed);
    } else {
      NeitherFirst(s, root, a, b, delayed);
    }
  }

  // ---------------------------------------------------------------- where the focus goes

  /** A container given this mode draws the focus to itself. */
  ghost predicate Draws(f: Forest, focused: Con, c: Con, mode: FullscreenMode)
    requires Acyclic(f) && c in f && focused in f
  {
    mode == Global || (mode == OnOutput && WorkspaceOf(f, c) == WorkspaceOf(f, focused))
  }

  lemma PassFocus(s: State, root: Con, c: Con, mode: FullscreenMode, delayed: bool)
    requires Sound(s) && root in s.tree && Enabling(s.tree, c)
    ensures Pass(s, root, c, mode, delayed).focused ==
            if s.tree[c].fullscreen != mode && Draws(s.tree, s.focused, c, mode) then c else s.focused
  {
    if mode != NotFullscreen && s.tree[c].fullscreen != mode {
      EnableFocus(s, root, c, mode, delayed);
    }
  }

  lemma PassWorkspaces(s: State, root: Con, c: Con, mode: FullscreenMode, delayed: bool, x: Con)
    requires Sound(s) && root in s.tree && Enabling(s.tree, c) && x in s.tree
    ensures var t := Pass(s, root, c, mode, delayed);
            Sound(t) && x in t.tree && WorkspaceOf(t.tree, x) == WorkspaceOf(s.tree, x)
  {
    PassEffect(s, root, c, mode, delayed);
    AncestryWorkspace(s.tree, Pass(s, root, c, mode, delayed).tree, x);
  }

  /** After the first call the first container has its mode still, or none. */
  lemma BetweenMode(s: State, root: Con, a: Con, b: Con, delayed: bool)
    requires Ready(s, root, a, b)
    ensures var k := FirstPass(s, root, a, b, delayed).tree;
            a in k && (k[a].fullscreen == s.tree[a].fullscreen || k[a].fullscreen == NotFullscreen)
    ensures s.tree[a].fullscreen == s.tree[b].fullscreen ==>
              FirstPass(s, root, a, b, delayed).tree[a].fullscreen == s.tree[a].fullscreen
  {
    PassEffect(s, root, b, s.tree[a].fullscreen, delayed);
  }

  /** The second container can draw the focus first, and then the first one; with
    * equal modes neither does. */
  lemma ExchangedFocus(s: State, root: Con, a: Con, b: Con, delayed: bool)
    requires Ready(s, root, a, b)
    ensures var m1, m2 := s.tree[a].fullscreen, s.tree[b].fullscreen;
            var between := if m1 != m2 && Draws(s.tree, s.focused, b, m1) then b else s.focused;
            && ExchangedModes(s, root, a, b, delayed).focused ==
               if m1 != m2 && Draws(s.tree, between, a, m2) then a else between
  {
    var m1, m2 := s.tree[a].fullscreen, s.tree[b].fullscreen;
    var k := FirstPass(s, root, a, b, delayed);
    PassFocus(s, root, b, m1, delayed);
    FirstPassReady(s, root, a, b, delayed);
    BetweenMode(s, root, a, b, delayed);
    PassWorkspaces(s, root, b, m1, delayed, a);
    PassWorkspaces(s, root, b, m1, delayed, k.focused);
    PassFocus(k, root, a, m2, delayed);
  }

  /** Nobody comes to another place. */
  lemma ExchangedShape(s: State, root: Con, a: Con, b: Con, delayed: bool)
    requires Ready(s, root, a, b)
    ensures var t := ExchangedModes(s, root, a, b, delayed); Sound(t) && SameShape(s.tree, t.tree)
  {
    var k := FirstPass(s, root, a, b, delayed);
    PassEffect(s, root, b, s.tree[a].fullscreen, delayed);
    FirstPassReady(s, root, a, b, delayed);
    PassEffect(k, root, a, s.tree[b].fullscreen, delayed);
    ShapeTrans(s.tree, k.tree, ExchangedModes(s, root, a, b, delayed).tree);
  }

  // ---------------------------------------------------------------- on the heap

  method PassMode(con: Con, mode: FullscreenMode, root: Con, delayed: bool, session: FocusOps.Session,
                  ghost cons: set<Con>)
    requires con in cons && root in cons && session.focused in cons && Sound(State(View(cons), session.focused)) &&
             Enabling(View(cons), con)
    modifies session`focused, cons`focus, cons`urgent, cons`urgencyTimer, cons`floats, cons`fullscreen
    ensures session.focused in cons
    ensures State(View(cons), session.focused) ==
            Pass(old(State(View(cons), session.focused)), root, con, mode, delayed)
  {
    if mode == NotFullscreen {
      ghost var s := State(View(cons), session.focused);
      ConDisableFullscreen(con, cons);
      assert session.focused == s.focused;
    } else {
      ConEnableFullscreen(con, mode, root, delayed, session, cons);
    }
  }

  /** The exchange of fullscreen modes in con_swap. */
  method ExchangeModes(first: Con, second: Con, root: Con, delayed: bool, session: FocusOps.Session,
                       ghost cons: set<Con>)
    requires first in cons && second in cons && root in cons && session.focused in cons
    requires Ready(State(View(cons), session.focused), root, first, second)
    modifies session`focused, cons`focus, cons`urgent, cons`urgencyTimer, cons`floats, cons`fullscreen
    ensures session.focused in cons
    ensures State(View(cons), session.focused)
            == ExchangedModes(old(State(View(cons), session.focused)), root, first, second, delayed)
  {
    ghost var s := State(View(cons), session.focused);
    assert s.tree[first] == Snapshot(first) && s.tree[second] == Snapshot(second);
    var secondMode := second.fullscreen;
    FirstPassReady(s, root, first, second, delayed);
    PassMode(second, first.fullscreen, root, delayed, session, cons);
    PassMode(first, secondMode, root, delayed, session, cons);
  }
}
