/** con_raise and con_activate: focusing a container, and putting the floating
  * container around it on top. */
module Activation {
  import opened Order
  import opened Containers
  import opened Focus
  import opened Urgency
  import opened FocusUrgency
  import opened Workspaces
  import opened Floating
  import ContainerOps
  import FocusOps

  // ---------------------------------------------------------------- the shape of a tree

  /** A window that floats is in a CT_FLOATING_CON, and those are listed. */
  ghost predicate FloatingHeld(f: Forest) {
    && (forall x {:trigger f[x].floating} :: x in f && f[x].floating ==>
       Attached(f, x) && f[f[x].parent].ty == FloatingCon)
    && (forall x {:trigger Attached(f, x)} :: x in f && f[x].ty == FloatingCon ==> Attached(f, x))
  }

  /** Workspaces are listed, beside workspaces only. */
  ghost predicate WorkspacesShelved(f: Forest) {
    forall x {:trigger Attached(f, x)} :: x in f && f[x].ty == Workspace ==>
      Attached(f, x) && forall y :: y in f[f[x].parent].nodes ==> y in f && f[y].ty == Workspace
  }

  /** What the tree of a running window manager keeps besides being one. */
  ghost predicate Proper(f: Forest) {
    WellFormed(f) && FloatsOnWorkspaces(f) && Rooted(f) && FloatingHeld(f) && WorkspacesShelved(f)
  }

  /** The same but for flags, modes, and the order of floating and focus lists. */
  ghost predicate SameShape(f: Forest, g: Forest) {
    && WellFormed(g) && SameAncestry(f, g)
    && (forall x {:trigger g[x].nodes} :: x in f ==> g[x].nodes == f[x].nodes)
    && (forall x {:trigger g[x].floats} :: x in f && f[x].floats == [] ==> g[x].floats == [])
    && (forall x {:trigger g[x].floating} :: x in f ==> g[x].floating == f[x].floating)
  }

  lemma ProperKept(f: Forest, g: Forest)
    requires Proper(f) && SameShape(f, g)
    ensures Proper(g)
  {
    forall x | x in f ensures Attached(g, x) == Attached(f, x) && g[x].parent == f[x].parent && g[x].ty == f[x].ty {
      assert Attached(g, x) == Attached(f, x);
    }
    forall x | x in g && g[x].ty == Workspace
      ensures Attached(g, x) && forall y :: y in g[g[x].parent].nodes ==> y in g && g[y].ty == Workspace
    {
      assert Attached(f, x) && g[f[x].parent].nodes == f[f[x].parent].nodes;
    }
    forall p {:trigger g[p]} | p in g && g[p].floats != [] ensures g[p].ty == Workspace {
      assert f[p].floats != [];
    }
  }

  lemma AncestryTrans(f: Forest, g: Forest, h: Forest)
    requires SameAncestry(f, g) && SameAncestry(g, h)
    ensures SameAncestry(f, h)
  {
    forall x | x in f ensures Attached(h, x) == Attached(f, x) && h[x].parent == f[x].parent && h[x].ty == f[x].ty {
      assert Attached(h, x) == Attached(g, x) == Attached(f, x);
    }
  }

  lemma ShapeTrans(f: Forest, g: Forest, h: Forest)
    requires SameShape(f, g) && SameShape(g, h)
    ensures SameShape(f, h)
  {
    AncestryTrans(f, g, h);
    forall x | x in f ensures h[x].nodes == f[x].nodes && h[x].floating == f[x].floating {
      assert h[x].nodes == g[x].nodes && h[x].floating == g[x].floating;
    }
    forall x | x in f && f[x].floats == [] ensures h[x].floats == [] {
      assert g[x].floats == [];
    }
  }

  /** The same lists of children as well. */
  ghost predicate SameLists(f: Forest, g: Forest) {
    SameShape(f, g) && forall x {:trigger g[x].floats} :: x in f ==> g[x].floats == f[x].floats
  }

  ghost predicate SameModes(f: Forest, g: Forest) {
    g.Keys == f.Keys && forall x {:trigger g[x].fullscreen} :: x in f ==> g[x].fullscreen == f[x].fullscreen
  }

  lemma ReflaggedLists(f: Forest, g: Forest)
    requires WellFormed(f) && Reflagged(f, g)
    ensures SameLists(f, g) && SameModes(f, g)
  {
    SameTree(f, g);
    forall x | x in f ensures Attached(g, x) == Attached(f, x) {
      assert f[x].parent in f ==> g[f[x].parent].focus == f[f[x].parent].focus;
    }
  }

  /** Modes are all that differs. */
  ghost predicate Remoded(f: Forest, g: Forest) {
    g.Keys == f.Keys && forall x {:trigger g[x]} :: x in f ==> g[x] == f[x].(fullscreen := g[x].fullscreen)
  }

  lemma RemodedLists(f: Forest, g: Forest)
    requires WellFormed(f) && Remoded(f, g)
    ensures SameLists(f, g) && SameFlags(f, g)
  {
    SameTree(f, g);
    forall x | x in f ensures Attached(g, x) == Attached(f, x) {
      assert f[x].parent in f ==> g[f[x].parent].focus == f[f[x].parent].focus;
    }
  }

  lemma RefocusedLists(f: Forest, g: Forest)
    requires WellFormed(f) && Refocused(f, g)
    ensures SameLists(f, g) && SameModes(f, g)
  {
    RefocusKeeps(f, g);
    forall x | x in f ensures Attached(g, x) == Attached(f, x) {
      assert f[x].parent in f ==> (x in g[f[x].parent].focus <==> x in f[f[x].parent].focus);
    }
  }

  lemma ListsTrans(f: Forest, g: Forest, h: Forest)
    requires SameLists(f, g) && SameLists(g, h)
    ensures SameLists(f, h)
  {
    ShapeTrans(f, g, h);
    forall x | x in f ensures h[x].floats == f[x].floats {
      assert h[x].floats == g[x].floats;
    }
  }

  lemma ModesTrans(f: Forest, g: Forest, h: Forest)
    requires SameModes(f, g) && SameModes(g, h)
    ensures SameModes(f, h)
  {
    forall x | x in f ensures h[x].fullscreen == f[x].fullscreen {
      assert h[x].fullscreen == g[x].fullscreen;
    }
  }

  /** con_focus moves nobody and changes no mode. */
  lemma RefocusLists(f: Forest, r: Con?)
    requires WellFormed(f) && FloatsOnWorkspaces(f) && (r != null ==> r in f)
    ensures SameLists(f, Refocus(f, r)) && SameModes(f, Refocus(f, r))
  {
    if r == null {
    } else {
      Raised(f, r);
      var g := FocusUp(f, Line(f, r));
      RefocusedLists(f, g);
      CalmedKeeps(g, r);
      var h := Calmed(g, r);
      ReflaggedLists(g, h);
      ListsTrans(f, g, h);
      ModesTrans(f, g, h);
    }
  }

  // ---------------------------------------------------------------- con_raise

  /** con_inside_floating on forests. */
  ghost function InsideFloating(f: Forest, c: Con): (r: Con?)
    requires Acyclic(f) && c in f
    decreases Depths(f)[c]
  {
    if f[c].ty == FloatingCon then c
    else if f[c].floating then f[c].parent
    else if f[c].ty == Workspace || f[c].ty == Output || !Attached(f, c) then null
    else InsideFloating(f, f[c].parent)
  }

  /** It is one of the floating children of its parent. */
  lemma {:induction false} InsideFloatingListed(f: Forest, c: Con)
    requires Proper(f) && c in f && InsideFloating(f, c) != null
    ensures var r := InsideFloating(f, c); r in f && Attached(f, r) && r in f[f[r].parent].floats
    decreases Depths(f)[c]
  {
    if f[c].ty == FloatingCon {
      assert Attached(f, c) && EdgeAgrees(f, f[c].parent, c);
    } else if f[c].floating {
      var r := f[c].parent;
      assert Attached(f, c) && Attached(f, r) && EdgeAgrees(f, f[r].parent, r);
    } else {
      InsideFloatingListed(f, f[c].parent);
    }
  }

  /** `r` is the innermost CT_FLOATING_CON around `c`, and no workspace and no
    * output lies between them. */
  ghost predicate Around(f: Forest, c: Con, r: Con)
    requires Acyclic(f) && c in f
  {
    && r in f && f[r].ty == FloatingCon && Inside(f, c, r)
    && forall x {:trigger Inside(f, c, x)} :: x in f && Inside(f, c, x) && StrictlyInside(f, x, r) ==>
         f[x].ty != FloatingCon && (f[x].floating || (f[x].ty != Workspace && f[x].ty != Output))
  }

  lemma AroundParent(f: Forest, c: Con, r: Con)
    requires Acyclic(f) && c in f && Attached(f, c) && c != r
    requires f[c].ty != FloatingCon && (f[c].floating || (f[c].ty != Workspace && f[c].ty != Output))
    ensures Around(f, c, r) <==> Around(f, f[c].parent, r)
  {
    forall x | x in f ensures Inside(f, c, x) <==> x == c || Inside(f, f[c].parent, x) {
      InsideUnfolds(f, c, x);
    }
    assert Inside(f, c, r) ==> forall x :: x in f && Inside(f, f[c].parent, x) ==> Inside(f, c, x);
    assert Inside(f, f[c].parent, r) ==> StrictlyInside(f, c, r);
  }

  lemma AroundItself(f: Forest, c: Con, r: Con)
    requires Acyclic(f) && c in f && f[c].ty == FloatingCon
    ensures Around(f, c, r) <==> r == c
  {
    assert Inside(f, c, c);
    forall x | x in f && Inside(f, c, x) ensures !StrictlyInside(f, x, c) {
      InsideIsDeeper(f, Depths(f), c, x);
      if StrictlyInside(f, x, c) { InsideIsDeeper(f, Depths(f), x, c); }
    }
  }

  /** con_inside_floating finds it if there is one, and otherwise nothing. */
  lemma {:induction false} InsideFloatingMeans(f: Forest, c: Con, r: Con)
    requires Proper(f) && c in f
    ensures Around(f, c, r) <==> InsideFloating(f, c) == r
    decreases Depths(f)[c]
  {
    if f[c].ty == FloatingCon {
      AroundItself(f, c, r);
    } else if f[c].floating {
      if r != c { AroundParent(f, c, r); }
      AroundItself(f, f[c].parent, r);
    } else if f[c].ty == Workspace || f[c].ty == Output || !Attached(f, c) {
      assert Inside(f, c, c);
      InsideUnfolds(f, c, r);
    } else {
      if r != c { AroundParent(f, c, r); }
      InsideFloatingMeans(f, f[c].parent, r);
    }
  }

  lemma {:induction false} SameInsideFloating(f: Forest, g: Forest, c: Con)
    requires WellFormed(f) && SameShape(f, g) && c in f
    ensures InsideFloating(g, c) == InsideFloating(f, c)
    decreases Depths(f)[c]
  {
    assert Attached(g, c) == Attached(f, c) && g[c].floating == f[c].floating;
    if f[c].ty != FloatingCon && !f[c].floating && f[c].ty != Workspace && f[c].ty != Output && Attached(f, c) {
      SameInsideFloating(f, g, f[c].parent);
    }
  }

  ghost function Topmost(s: seq<Con>, x: Con): (r: seq<Con>)
    requires x in s
  {
    Without(s, x) + [x]
  }

  /** floating_raise_con */
  ghost function RaiseFloating(f: Forest, r: Con): Forest
    requires r in f && Attached(f, r) && r in f[f[r].parent].floats
  {
    var p: Con := f[r].parent;
    f[p := f[p].(floats := Topmost(f[p].floats, r))]
  }

  lemma TopmostLists(n: Node, x: Con)
    requires OwnLists(n) && x in n.floats
    ensures OwnLists(n.(floats := Topmost(n.floats, x))) && |Topmost(n.floats, x)| == |n.floats| &&
            forall y :: y in Topmost(n.floats, x) <==> y in n.floats
  {
    WithoutMembers(n.floats, x);
  }

  /** Floating lists are all that differs, and in order only. */
  ghost predicate FloatsMoved(f: Forest, g: Forest) {
    && g.Keys == f.Keys
    && (forall x {:trigger g[x]} :: x in f ==> g[x] == f[x].(floats := g[x].floats) && Distinct(g[x].floats))
    && (forall x {:trigger g[x].floats} :: x in f ==>
          |g[x].floats| == |f[x].floats| && (forall y :: y in g[x].floats ==> y in f[x].floats) &&
            (forall y :: y in f[x].floats ==> y in g[x].floats))
  }

  lemma RaiseFloatingMoves(f: Forest, r: Con)
    requires WellFormed(f) && r in f && Attached(f, r) && r in f[f[r].parent].floats
    ensures FloatsMoved(f, RaiseFloating(f, r))
  {
    TopmostLists(f[f[r].parent], r);
    forall x | x in f ensures Distinct(f[x].floats) {
      assert OwnLists(f[x]);
    }
  }

  lemma MovedEdges(f: Forest, g: Forest)
    requires WellFormed(f) && FloatsMoved(f, g)
    ensures WellFormed(g)
  {
    forall q, c | q in g && c in g[q].focus ensures EdgeAgrees(g, q, c) {
      assert EdgeAgrees(f, q, c);
    }
    forall q | q in g ensures OwnLists(g[q]) {
      assert OwnLists(f[q]);
    }
    assert Ranked(g, Depths(f));
  }

  lemma MovedShape(f: Forest, g: Forest)
    requires WellFormed(f) && FloatsMoved(f, g)
    ensures SameShape(f, g) && SameModes(f, g) && SameFlags(f, g)
  {
    MovedEdges(f, g);
    forall x | x in f ensures Attached(g, x) == Attached(f, x) && g[x].parent == f[x].parent && g[x].ty == f[x].ty {
      assert f[x].parent in f ==> g[f[x].parent].focus == f[f[x].parent].focus;
    }
  }

  /** con_raise */
  ghost function Raise(f: Forest, c: Con): (g: Forest)
    requires Proper(f) && c in f
    ensures Proper(g) && SameShape(f, g)
  {
    var r := InsideFloating(f, c);
    if r == null then f
    else
      InsideFloatingListed(f, c);
      RaiseFloatingMoves(f, r);
      MovedShape(f, RaiseFloating(f, r));
      ProperKept(f, RaiseFloating(f, r));
      RaiseFloating(f, r)
  }

  lemma RaiseKeeps(f: Forest, c: Con)
    requires Proper(f) && c in f
    ensures SameModes(f, Raise(f, c)) && SameFlags(f, Raise(f, c))
  {
    if InsideFloating(f, c) != null {
      InsideFloatingListed(f, c);
      RaiseFloatingMoves(f, InsideFloating(f, c));
      MovedShape(f, Raise(f, c));
    }
  }

  /** The floating container around `c` comes last, on top, in its parent's list of
    * floating children; the others keep their order, and all else stays. */
  lemma RaiseMeans(f: Forest, c: Con, r: Con)
    requires Proper(f) && c in f && Around(f, c, r)
    ensures var p, g := f[r].parent, Raise(f, c);
            && p in f && g.Keys == f.Keys && (forall x :: x in f && x != p ==> g[x] == f[x])
            && exists i :: 0 <= i < |f[p].floats| && f[p].floats[i] == r &&
                 g[p] == f[p].(floats := f[p].floats[..i] + f[p].floats[i + 1..] + [r])
  {
    InsideFloatingMeans(f, c, r);
    InsideFloatingListed(f, c);
    var s := f[f[r].parent].floats;
    var i := IndexOf(s, r);
    assert 0 <= i < |s| && s[i] == r && Without(s, r) == s[..i] + s[i + 1..];
  }

  /** A container that is not in a floating one raises nothing. */
  lemma RaiseNothing(f: Forest, c: Con)
    requires Proper(f) && c in f && forall r :: r in f ==> !Around(f, c, r)
    ensures Raise(f, c) == f
  {
    if InsideFloating(f, c) != null {
      InsideFloatingMeans(f, c, InsideFloating(f, c));
    }
  }

  lemma AncestryAround(f: Forest, g: Forest, h: Forest, k: Forest)
    requires SameAncestry(f, g) && SameAncestry(f, h) && SameAncestry(g, k)
    ensures SameAncestry(h, k)
  {
    forall x | x in h ensures Attached(k, x) == Attached(h, x) && k[x].parent == h[x].parent && k[x].ty == h[x].ty {
      assert Attached(k, x) == Attached(g, x) == Attached(f, x) == Attached(h, x);
    }
  }

  lemma ShapeAround(f: Forest, g: Forest, h: Forest, k: Forest)
    requires SameShape(f, g) && SameShape(f, h) && SameShape(g, k) && forall x :: x in h ==> k[x].floats == h[x].floats
    ensures SameLists(h, k)
  {
    AncestryAround(f, g, h, k);
    forall x | x in h ensures k[x].nodes == h[x].nodes {
      assert k[x].nodes == g[x].nodes == f[x].nodes && h[x].nodes == f[x].nodes;
    }
    forall x | x in h ensures k[x].floating == h[x].floating {
      assert k[x].floating == g[x].floating == f[x].floating && h[x].floating == f[x].floating;
    }
  }

  lemma RaiseFloats(f: Forest, g: Forest, c: Con, x: Con)
    requires Proper(f) && Proper(g) && SameLists(f, g) && c in f && x in f
    ensures x in Raise(f, c) && x in Raise(g, c) && Raise(g, c)[x].floats == Raise(f, c)[x].floats
  {
    SameInsideFloating(f, g, c);
    assert g[x].floats == f[x].floats;
    var r := InsideFloating(f, c);
    if r != null {
      InsideFloatingListed(f, c);
      assert Attached(g, r) == Attached(f, r);
      assert g[f[r].parent].floats == f[f[r].parent].floats;
    }
  }

  /** Raising in trees with the same lists gives the same lists. */
  lemma RaiseLists(f: Forest, g: Forest, c: Con)
    requires Proper(f) && Proper(g) && SameLists(f, g) && c in f
    ensures SameLists(Raise(f, c), Raise(g, c))
  {
    forall x | x in f ensures Raise(g, c)[x].floats == Raise(f, c)[x].floats {
      RaiseFloats(f, g, c, x);
    }
    ShapeAround(f, g, Raise(f, c), Raise(g, c));
  }

  // ---------------------------------------------------------------- con_activate

  lemma RefocusProper(f: Forest, c: Con)
    requires Proper(f) && c in f
    ensures Proper(Refocus(f, c)) && SameLists(f, Refocus(f, c)) && SameModes(f, Refocus(f, c))
  {
    RefocusLists(f, c);
    ProperKept(f, Refocus(f, c));
  }

  ghost function Activate(f: Forest, c: Con): (g: Forest)
    requires Proper(f) && c in f
    ensures Proper(g) && SameShape(f, g)
  {
    RefocusProper(f, c);
    ShapeTrans(f, Refocus(f, c), Raise(Refocus(f, c), c));
    Raise(Refocus(f, c), c)
  }

  /** No mode changes, and the floating container around `c` is what moves. */
  lemma ActivateKeeps(f: Forest, c: Con)
    requires Proper(f) && c in f
    ensures SameModes(f, Activate(f, c)) && SameLists(Raise(f, c), Activate(f, c))
  {
    var h := Refocus(f, c);
    RefocusProper(f, c);
    RaiseKeeps(h, c);
    ModesTrans(f, h, Raise(h, c));
    RaiseLists(f, h, c);
  }

  lemma RaiseFields(f: Forest, c: Con, x: Con)
    requires Proper(f) && c in f && x in f
    ensures x in Raise(f, c) && Raise(f, c)[x] == f[x].(floats := Raise(f, c)[x].floats)
  {
    if InsideFloating(f, c) != null {
      InsideFloatingListed(f, c);
      RaiseFloatingMoves(f, InsideFloating(f, c));
    }
  }

  /** Afterwards each container above `c` has the one below first in its focus
    * list, so that descending from any of them ends at `c`. */
  lemma ActivateLeads(f: Forest, c: Con)
    requires Proper(f) && c in f
    ensures Leads(Activate(f, c), Line(f, c))
    ensures forall a :: a in f && Inside(f, c, a) ==> Descend(Activate(f, c), c, a) == c
  {
    FocusLeads(f, c);
    var h := Refocus(f, c);
    RefocusProper(f, c);
    forall x | x in h ensures Raise(h, c)[x].focus == h[x].focus { RaiseFields(h, c, x); }
    LeadsSame(h, Raise(h, c), Line(f, c));
    forall a | a in f && Inside(f, c, a) ensures Descend(Activate(f, c), c, a) == c {
      DescendAlong(Raise(h, c), Line(f, c), IndexOf(Line(f, c), a));
    }
  }

  lemma ActivateBeside(f: Forest, c: Con, p: Con)
    requires Proper(f) && c in f && p in f && !StrictlyInside(f, c, p)
    ensures p in Activate(f, c) && Activate(f, c)[p].focus == f[p].focus
  {
    FocusBeside(f, c, p);
    RefocusProper(f, c);
    RaiseFields(Refocus(f, c), c, p);
  }

  /** The leaf loses its hint, unless its timer runs; no other leaf does. */
  lemma ActivateTakesHint(f: Forest, c: Con, l: Con)
    requires Proper(f) && c in f && l in f && (Leaf(f, l) || l == c)
    ensures l in Activate(f, c)
    ensures Activate(f, c)[l].urgent <==> f[l].urgent && (l == c && Leaf(f, c) ==> f[c].urgencyTimer)
  {
    FocusTakesHint(f, c, l);
    RefocusProper(f, c);
    RaiseFields(Refocus(f, c), c, l);
  }

  /** Flags are as exact in a tree of the same shape. */
  lemma ShapeExact(f: Forest, g: Forest)
    requires WellFormed(f) && SameShape(f, g) && SameFlags(f, g) && Exact(f)
    ensures Exact(g)
  {
    forall x | x in f ensures Line(g, x) == Line(f, x) {
      AncestryLine(f, g, x);
    }
    forall q | q in g ensures FlagExact(g, q) {
      assert FlagExact(f, q);
      SameFlag(f, g, q);
    }
  }

  lemma ActivateKeepsExact(f: Forest, c: Con)
    requires Proper(f) && c in f && Exact(f)
    ensures Exact(Activate(f, c))
  {
    var h := Refocus(f, c);
    RefocusProper(f, c);
    FocusKeepsExact(f, c);
    RaiseKeeps(h, c);
    ShapeExact(h, Raise(h, c));
  }

  // ---------------------------------------------------------------- with the focus

  /** All containers, and which has the focus. */
  datatype State = State(tree: Forest, focused: Con)

  ghost predicate Sound(s: State) {
    Proper(s.tree) && s.focused in s.tree && Attached(s.tree, s.focused)
  }

  lemma SoundKept(s: State, t: State)
    requires Sound(s) && SameShape(s.tree, t.tree) && t.focused in s.tree && Attached(s.tree, t.focused)
    ensures Sound(t)
  {
    ProperKept(s.tree, t.tree);
    assert Attached(t.tree, t.focused) == Attached(s.tree, t.focused);
  }

  // ---------------------------------------------------------------- on the heap

  /** The way up con_inside_floating goes. */
  ghost function Way(f: Forest, c: Con): (r: seq<Con>)
    requires Acyclic(f) && c in f
    ensures r != [] && r[0] == c && forall x :: x in r ==> x in f
    decreases Depths(f)[c]
  {
    if f[c].ty == FloatingCon || f[c].floating || f[c].ty == Workspace || f[c].ty == Output || !Attached(f, c) then [c]
    else [c] + Way(f, f[c].parent)
  }

  lemma {:induction false} WayClimbs(cons: set<Con>, c: Con)
    requires Proper(View(cons)) && c in cons
    ensures var path := Way(View(cons), c);
            Climbing(path, c) && FoundAt(path[|path| - 1]) == InsideFloating(View(cons), c)
    decreases Depths(View(cons))[c]
  {
    var f := View(cons);
    assert f[c] == Snapshot(c);
    assert Attached(f, c) || c.parent == null;
    if |Way(f, c)| > 1 {
      var rest := Way(f, f[c].parent);
      WayClimbs(cons, f[c].parent);
      assert Way(f, c) == [c] + rest && [c] + rest == Way(f, c);
    }
  }

  method FloatingRaiseCon(con: Con, ghost cons: set<Con>)
    requires con in cons && Attached(View(cons), con) && con in View(cons)[View(cons)[con].parent].floats
    modifies cons`floats
    ensures View(cons) == RaiseFloating(old(View(cons)), con)
  {
    ghost var g := RaiseFloating(View(cons), con);
    con.parent.floats := Without(con.parent.floats, con);
    con.parent.floats := con.parent.floats + [con];
    ContainerOps.ShowView(cons, g);
  }

  method FindFloating(con: Con, ghost cons: set<Con>) returns (r: Con?)
    requires con in cons && Proper(View(cons))
    ensures r == InsideFloating(View(cons), con)
  {
    ghost var path := Way(View(cons), con);
    WayClimbs(cons, con);
    ghost var last := path[|path| - 1];
    assert FoundAt(last) == InsideFloating(View(cons), con);
    r := ConInsideFloating(con, path);
  }

  method ConRaise(con: Con, ghost cons: set<Con>)
    requires con in cons && Proper(View(cons))
    modifies cons`floats
    ensures View(cons) == Raise(old(View(cons)), con)
  {
    var floating := FindFloating(con, cons);
    if floating != null {
      InsideFloatingListed(View(cons), con);
      FloatingRaiseCon(floating, cons);
    }
  }

  method ConActivate(con: Con, session: FocusOps.Session, ghost cons: set<Con>)
    requires con in cons && Proper(View(cons)) && Attached(View(cons), con)
    modifies session`focused, cons`focus, cons`urgent, cons`floats
    ensures session.focused == con && View(cons) == Activate(old(View(cons)), con)
  {
    RootedTopped(View(cons), con);
    RefocusProper(View(cons), con);
    ConFocusFully(con, session, cons);
    ConRaise(con, cons);
  }
}
