/** Urgency hints: a split container is flagged when some leaf in it is. */
module Urgency {
  import opened Order
  import opened Containers

  ghost predicate Leaf(f: Forest, c: Con)
    requires c in f
  {
    f[c].nodes == []
  }

  ghost predicate Boundary(n: Node) {
    n.ty == Workspace || n.ty == Dockarea
  }

  /** Floating containers are only ever attached to workspaces. */
  ghost predicate FloatsOnWorkspaces(f: Forest) {
    forall p {:trigger f[p]} :: p in f && f[p].floats != [] ==> f[p].ty == Workspace
  }

  /** Hints are kept for what lies below the workspaces. */
  ghost predicate Tracked(f: Forest, q: Con)
    requires Acyclic(f) && q in f
  {
    forall x {:trigger f[x]} :: x in f && Inside(f, x, q) ==> !Boundary(f[x])
  }

  ghost predicate UrgentLeaf(f: Forest, l: Con) {
    l in f && Leaf(f, l) && f[l].urgent
  }

  ghost predicate UrgentUnder(f: Forest, q: Con)
    requires Acyclic(f) && q in f
  {
    exists l :: l in f && UrgentLeaf(f, l) && Inside(f, l, q)
  }

  ghost predicate FlagExact(f: Forest, q: Con)
    requires Acyclic(f) && q in f
  {
    Tracked(f, q) && !Leaf(f, q) ==> (f[q].urgent <==> UrgentUnder(f, q))
  }

  /** The invariant: below the workspaces, every split container's flag says
    * whether some leaf under it is urgent. */
  ghost predicate Exact(f: Forest)
    requires Acyclic(f)
  {
    forall q {:trigger f[q]} :: q in f ==> FlagExact(f, q)
  }

  // ---------------------------------------------------------------- con_has_urgent_child

  lemma TilingChild(f: Forest, p: Con, i: nat)
    requires WellFormed(f) && p in f && i < |f[p].nodes|
    ensures var c := f[p].nodes[i]; c in f && Attached(f, c) && f[c].parent == p && Below(f, c) < Below(f, p)
  {
    var c := f[p].nodes[i];
    assert OwnLists(f[p]) && c in f[p].nodes && c in f[p].focus && EdgeAgrees(f, p, c);
    BelowShrinks(f, c);
  }

  /** con_has_urgent_child: the search through tiling children. */
  ghost predicate HasUrgentChild(f: Forest, c: Con)
    requires WellFormed(f) && c in f
    decreases Below(f, c)
  {
    if Leaf(f, c) then f[c].urgent
    else exists i :: 0 <= i < |f[c].nodes| && (TilingChild(f, c, i); HasUrgentChild(f, f[c].nodes[i]))
  }

  /** Between `x` and an ancestor `q` lies the child of `q` above `x`. */
  lemma {:induction false} ChildAbove(f: Forest, x: Con, q: Con) returns (c: Con)
    requires WellFormed(f) && x in f && Inside(f, x, q) && x != q
    ensures c in f && Attached(f, c) && f[c].parent == q && Inside(f, x, c) && q in f
    decreases Depths(f)[x]
  {
    if f[x].parent == q {
      c := x;
    } else {
      c := ChildAbove(f, f[x].parent, q);
    }
  }

  lemma InsideTracked(f: Forest, c: Con, q: Con)
    requires Acyclic(f) && c in f && q in f && Inside(f, c, q) && Tracked(f, q)
    ensures Tracked(f, c)
  {
    forall x | x in f && Inside(f, x, c) ensures !Boundary(f[x]) {
      InsideTrans(f, x, c, q);
    }
  }

  /** Below the workspaces there are no floating children, so that child is a
    * tiling one. */
  lemma TilingAbove(f: Forest, x: Con, q: Con) returns (i: nat)
    requires WellFormed(f) && FloatsOnWorkspaces(f) && x in f && q in f && Inside(f, x, q) && x != q &&
             f[q].ty != Workspace
    ensures i < |f[q].nodes| && f[q].nodes[i] in f && Inside(f, x, f[q].nodes[i])
  {
    var c := ChildAbove(f, x, q);
    assert EdgeAgrees(f, q, c) && OwnLists(f[q]) && c !in f[q].floats;
    i := IndexOf(f[q].nodes, c);
  }

  lemma LeafAlone(f: Forest, q: Con)
    requires WellFormed(f) && FloatsOnWorkspaces(f) && q in f && Leaf(f, q) && f[q].ty != Workspace
    ensures forall x :: x in f && Inside(f, x, q) ==> x == q
    ensures UrgentUnder(f, q) <==> f[q].urgent
  {
    forall x | x in f && Inside(f, x, q) ensures x == q {
      if x != q { var i := TilingAbove(f, x, q); }
    }
    assert Inside(f, q, q);
  }

  /** Below the workspaces it finds exactly the urgent leaves. */
  lemma {:induction false} UrgentChildMeans(f: Forest, q: Con)
    requires WellFormed(f) && FloatsOnWorkspaces(f) && q in f && Tracked(f, q)
    ensures HasUrgentChild(f, q) <==> UrgentUnder(f, q)
    decreases Below(f, q)
  {
    if Leaf(f, q) {
      LeafAlone(f, q);
    } else {
      forall i | 0 <= i < |f[q].nodes|
        ensures (TilingChild(f, q, i); HasUrgentChild(f, f[q].nodes[i])) ==> UrgentUnder(f, q)
      {
        TilingChild(f, q, i);
        var c := f[q].nodes[i];
        InsideUnfolds(f, c, q);
        InsideTracked(f, c, q);
        UrgentChildMeans(f, c);
        if UrgentUnder(f, c) {
          var l :| l in f && UrgentLeaf(f, l) && Inside(f, l, c);
          InsideTrans(f, l, c, q);
        }
      }
      if UrgentUnder(f, q) {
        var l :| l in f && UrgentLeaf(f, l) && Inside(f, l, q);
        var i := TilingAbove(f, l, q);
        TilingChild(f, q, i);
        var c := f[q].nodes[i];
        InsideUnfolds(f, c, q);
        InsideTracked(f, c, q);
        UrgentChildMeans(f, c);
      }
    }
  }

  // ---------------------------------------------------------------- con_set_urgency

  /** The same containers but for some urgency flags. */
  ghost predicate Reflagged(f: Forest, g: Forest) {
    g.Keys == f.Keys && forall p {:trigger g[p]} :: p in f ==> g[p] == f[p].(urgent := g[p].urgent)
  }

  lemma ReflagKeeps(f: Forest, g: Forest)
    requires WellFormed(f) && Reflagged(f, g)
    ensures WellFormed(g) && forall x :: x in f ==> Line(g, x) == Line(f, x)
    ensures forall x :: x in f ==> Tracked(g, x) == Tracked(f, x)
    ensures FloatsOnWorkspaces(f) ==> FloatsOnWorkspaces(g)
  {
    SameTree(f, g);
    forall x | x in f ensures Line(g, x) == Line(f, x) {
      SameLine(f, g, x);
    }
  }

  /** The ancestors con_update_parents_urgency visits. */
  ghost function Ups(f: Forest, c: Con): (r: seq<Con>)
    requires Acyclic(f) && c in f
    ensures forall q :: q in r ==> q in f && !Boundary(f[q])
    decreases Depths(f)[c]
  {
    if Attached(f, c) && !Boundary(f[f[c].parent]) then [f[c].parent] + Ups(f, f[c].parent) else []
  }

  ghost predicate StrictlyInside(f: Forest, c: Con, q: Con)
    requires Acyclic(f) && c in f
  {
    Inside(f, c, q) && c != q
  }

  lemma {:induction false} UpsMeaning(f: Forest, c: Con, q: Con)
    requires WellFormed(f) && c in f && q in f
    ensures q in Ups(f, c) ==> StrictlyInside(f, c, q)
    ensures StrictlyInside(f, c, q) && Tracked(f, q) ==> q in Ups(f, c)
    decreases Depths(f)[c]
  {
    if Attached(f, c) {
      var p := f[c].parent;
      UpsMeaning(f, p, q);
      if Inside(f, p, q) {
        InsideIsDeeper(f, Depths(f), p, q);
      }
    }
  }

  /** con_update_parents_urgency */
  ghost function UpdateParents(f: Forest, c: Con): Forest
    requires WellFormed(f) && c in f
  {
    map q | q in f ::
      if q in Ups(f, c) then f[q].(urgent := f[c].urgent || (f[q].urgent && HasUrgentChild(f, q))) else f[q]
  }

  /** While its urgency timer runs, a container keeps its flag. */
  ghost function Hinted(f: Forest, c: Con, urgent: bool): Forest
    requires c in f
  {
    if f[c].urgencyTimer then f else f[c := f[c].(urgent := urgent)]
  }

  lemma HintedKeeps(f: Forest, c: Con, urgent: bool)
    requires WellFormed(f) && c in f
    ensures Reflagged(f, Hinted(f, c, urgent)) && WellFormed(Hinted(f, c, urgent))
  {
    ReflagKeeps(f, Hinted(f, c, urgent));
  }

  /** The hint is for the container that has the focus. */
  ghost predicate Ignored(focused: Con?, c: Con, urgent: bool) {
    urgent && focused == c
  }

  /** con_set_urgency, up to the workspace's own flag. */
  ghost function SetUrgency(f: Forest, focused: Con?, c: Con, urgent: bool): Forest
    requires WellFormed(f) && c in f
  {
    if Ignored(focused, c, urgent) then f
    else
      var g := Hinted(f, c, urgent);
      HintedKeeps(f, c, urgent);
      if f[c].ty == Workspace then g else UpdateParents(g, c)
  }

  /** A container whose own flag is right: what its hint does above it. */
  ghost predicate Settled(f: Forest, c: Con)
    requires Acyclic(f) && c in f
  {
    Tracked(f, c) && (f[c].urgent <==> UrgentUnder(f, c))
  }

  /** What is visited has a tiling child. */
  lemma UpsSplit(f: Forest, c: Con, q: Con)
    requires WellFormed(f) && FloatsOnWorkspaces(f) && c in f && q in f
    ensures q in Ups(f, c) ==> !Leaf(f, q)
  {
    UpsMeaning(f, c, q);
    if q in Ups(f, c) {
      var i := TilingAbove(f, c, q);
    }
  }

  /** Same lines, same leaves: the same urgent ones under `q`. */
  lemma SameUrgent(f: Forest, g: Forest, q: Con)
    requires Acyclic(f) && Acyclic(g) && g.Keys == f.Keys && q in f
    requires forall x :: x in f ==> Line(g, x) == Line(f, x)
    requires forall l :: l in f ==> UrgentLeaf(g, l) == UrgentLeaf(f, l)
    ensures UrgentUnder(g, q) == UrgentUnder(f, q)
  {
    assert forall l :: l in f && UrgentLeaf(f, l) && Inside(f, l, q) ==> UrgentLeaf(g, l) && Inside(g, l, q);
    assert forall l :: l in g && UrgentLeaf(g, l) && Inside(g, l, q) ==> UrgentLeaf(f, l) && Inside(f, l, q);
  }

  /** Updating writes no leaf, so it changes no leaf's urgency and hence nothing
    * that "some leaf under it is urgent" depends on. */
  lemma UpdateParentsEffect(f: Forest, c: Con)
    requires WellFormed(f) && FloatsOnWorkspaces(f) && c in f && Tracked(f, c)
    ensures Reflagged(f, UpdateParents(f, c)) && WellFormed(UpdateParents(f, c))
    ensures forall q :: q in f ==> UrgentUnder(UpdateParents(f, c), q) == UrgentUnder(f, q)
  {
    var g := UpdateParents(f, c);
    ReflagKeeps(f, g);
    forall l | l in f ensures UrgentLeaf(g, l) == UrgentLeaf(f, l) {
      UpsSplit(f, c, l);
    }
    forall q | q in f ensures UrgentUnder(g, q) == UrgentUnder(f, q) {
      SameUrgent(f, g, q);
    }
  }

  /** The flag of `q` after con_update_parents_urgency(c). */
  lemma FlagAfter(f: Forest, c: Con, q: Con)
    requires WellFormed(f) && FloatsOnWorkspaces(f) && c in f && Settled(f, c)
    requires q in f && Tracked(f, q)
    ensures var g := UpdateParents(f, c);
            g[q].urgent <==> if StrictlyInside(f, c, q) then f[c].urgent || (f[q].urgent && UrgentUnder(f, q))
              else f[q].urgent
  {
    UpsMeaning(f, c, q);
    UrgentChildMeans(f, q);
  }

  /** A container's urgent leaves are its ancestors' too. */
  lemma UrgentAbove(f: Forest, c: Con, q: Con)
    requires Acyclic(f) && c in f && q in f && Inside(f, c, q) && UrgentUnder(f, c)
    ensures UrgentUnder(f, q)
  {
    var l :| l in f && UrgentLeaf(f, l) && Inside(f, l, c);
    InsideTrans(f, l, c, q);
  }

  /** `g` is `f` with the flag of the leaf `c` set anew. */
  ghost predicate LeafSet(f: Forest, g: Forest, c: Con) {
    && WellFormed(f) && FloatsOnWorkspaces(f) && c in f && Leaf(f, c) && Tracked(f, c)
    && Reflagged(f, g) && (forall x :: x in f && x != c ==> g[x] == f[x])
  }

  /** Elsewhere than above `c` nothing depends on `c`'s flag, and above it an
    * urgent leaf other than `c` still counts. */
  lemma LeafChanged(f: Forest, g: Forest, c: Con, q: Con)
    requires LeafSet(f, g, c) && q in f && Tracked(f, q) && !Leaf(f, q) && FlagExact(f, q)
    ensures WellFormed(g)
    ensures !Inside(f, c, q) ==> (g[q].urgent <==> UrgentUnder(g, q))
    ensures Inside(f, c, q) && UrgentUnder(g, q) && !g[c].urgent ==> g[q].urgent
  {
    ReflagKeeps(f, g);
    if UrgentUnder(g, q) {
      var l :| l in g && UrgentLeaf(g, l) && Inside(g, l, q);
      assert l != c ==> UrgentLeaf(f, l) && Inside(f, l, q);
    }
    if UrgentUnder(f, q) {
      var l :| l in f && UrgentLeaf(f, l) && Inside(f, l, q);
      assert l != c ==> UrgentLeaf(g, l) && Inside(g, l, q);
    }
  }

  lemma LeafSetFlag(f: Forest, g: Forest, c: Con, q: Con)
    requires LeafSet(f, g, c) && q in f && FlagExact(f, q)
    ensures WellFormed(g) && WellFormed(UpdateParents(g, c)) && FlagExact(UpdateParents(g, c), q)
  {
    ReflagKeeps(f, g);
    LeafAlone(g, c);
    UpdateParentsEffect(g, c);
    var h := UpdateParents(g, c);
    ReflagKeeps(g, h);
    if Tracked(f, q) && !Leaf(f, q) {
      FlagAfter(g, c, q);
      LeafChanged(f, g, c, q);
      if g[c].urgent && Inside(g, c, q) { UrgentAbove(g, c, q); }
    }
  }

  lemma LeafSetExact(f: Forest, g: Forest, c: Con)
    requires LeafSet(f, g, c) && Exact(f)
    ensures WellFormed(g) && WellFormed(UpdateParents(g, c)) && Exact(UpdateParents(g, c))
  {
    LeafSetFlag(f, g, c, c);
    forall q | q in UpdateParents(g, c) ensures FlagExact(UpdateParents(g, c), q) {
      assert FlagExact(f, q);
      LeafSetFlag(f, g, c, q);
    }
  }

  lemma LeafHinted(f: Forest, c: Con, urgent: bool)
    requires WellFormed(f) && FloatsOnWorkspaces(f) && c in f && Leaf(f, c) && Tracked(f, c)
    ensures LeafSet(f, Hinted(f, c, urgent), c) && f[c].ty != Workspace
  {
    assert Inside(f, c, c);
    assert !Boundary(f[c]);
  }

  /** Setting or clearing the hint of a leaf keeps every flag exact, whether or
    * not the leaf has the focus or a running timer. */
  lemma SetLeafKeepsExact(f: Forest, focused: Con?, c: Con, urgent: bool)
    requires WellFormed(f) && FloatsOnWorkspaces(f) && Exact(f) && c in f && Leaf(f, c) && Tracked(f, c)
    ensures WellFormed(SetUrgency(f, focused, c, urgent)) && Exact(SetUrgency(f, focused, c, urgent))
  {
    if !Ignored(focused, c, urgent) {
      LeafHinted(f, c, urgent);
      LeafSetExact(f, Hinted(f, c, urgent), c);
    }
  }

  /** The hint is taken unless it is for the container with the focus or a timer
    * runs; no other leaf is touched. */
  lemma HintTaken(f: Forest, focused: Con?, c: Con, urgent: bool, l: Con)
    requires WellFormed(f) && FloatsOnWorkspaces(f) && c in f && Leaf(f, c) && l in f && Leaf(f, l)
    ensures var h := SetUrgency(f, focused, c, urgent);
            && l in h && h[l].urgent ==
               if l != c || f[c].urgencyTimer || (urgent && focused == c) then f[l].urgent else urgent
  {
    if !(urgent && focused == c) {
      HintedKeeps(f, c, urgent);
      var g := Hinted(f, c, urgent);
      ReflagKeeps(f, g);
      assert g[l].nodes == f[l].nodes;
      if f[c].ty != Workspace { UpsSplit(g, c, l); }
    }
  }
}
