/** The two con_set_urgency calls of con_swap: do they put the flags right after
  * two subtrees have changed parents? */
module SwapUrgency {
  import opened Order
  import opened Containers
  import opened Swapping
  import opened Urgency

  // ---------------------------------------------------------------- ancestry across a swap

  lemma SwapSymmetric(f: Forest, a: Con, b: Con)
    requires a in f && b in f && a != b
    ensures Swap(f, a, b) == Swap(f, b, a)
  {
    forall q | q in f ensures Swap(f, a, b)[q] == Swap(f, b, a)[q] {
      assert Exchanged(f[q].nodes, a, b) == Exchanged(f[q].nodes, b, a);
      assert Exchanged(f[q].focus, a, b) == Exchanged(f[q].focus, b, a);
    }
  }

  lemma SwapAttached(f: Forest, a: Con, b: Con, x: Con)
    requires CanSwap(f, a, b) && x in f && x != a && x != b
    ensures var g := Swap(f, a, b); g[x].parent == f[x].parent && Attached(g, x) == Attached(f, x)
  {
    if f[x].parent in f {
      ExchangedMembers(f[f[x].parent].focus, a, b);
    }
  }

  /** Outside both subtrees nothing above a container changes. */
  lemma {:induction false} OuterLine(f: Forest, a: Con, b: Con, x: Con)
    requires CanSwap(f, a, b) && x in f && !Inside(f, x, a) && !Inside(f, x, b)
    ensures WellFormed(Swap(f, a, b)) && Line(Swap(f, a, b), x) == Line(f, x)
    decreases Depths(f)[x]
  {
    SwapKeeps(f, a, b);
    SwapAttached(f, a, b, x);
    if Attached(f, x) {
      OuterLine(f, a, b, f[x].parent);
    }
  }

  lemma StrictlyAbove(f: Forest, b: Con, q: Con)
    requires Acyclic(f) && b in f && Attached(f, b)
    ensures StrictlyInside(f, b, q) <==> Inside(f, f[b].parent, q)
  {
    InsideUnfolds(f, b, q);
    if Inside(f, f[b].parent, b) {
      InsideIsDeeper(f, Depths(f), f[b].parent, b);
    }
  }

  lemma TopOnly(f: Forest, a: Con, q: Con)
    requires Acyclic(f) && a in f && q in f
    ensures Inside(f, a, q) && Inside(f, q, a) <==> q == a
  {
    if Inside(f, a, q) && Inside(f, q, a) && q != a {
      InsideIsDeeper(f, Depths(f), a, q);
      InsideIsDeeper(f, Depths(f), q, a);
    }
  }

  /** Inside `a` the ancestors up to `a` stay, and above it stands what stood
    * above `b`. */
  lemma {:induction false} InnerLine(f: Forest, a: Con, b: Con, x: Con, q: Con)
    requires CanSwap(f, a, b) && x in f && q in f && Inside(f, x, a)
    ensures WellFormed(Swap(f, a, b))
    ensures Inside(Swap(f, a, b), x, q) <==> (Inside(f, x, q) && Inside(f, q, a)) || StrictlyInside(f, b, q)
    decreases Depths(f)[x]
  {
    var g := Swap(f, a, b);
    SwapKeeps(f, a, b);
    if x == a {
      ParentOutside(f, a, b);
      OuterLine(f, a, b, f[b].parent);
      InsideUnfolds(g, a, q);
      StrictlyAbove(f, b, q);
      TopOnly(f, a, q);
    } else {
      if Inside(f, x, b) {
        AncestorsCompare(f, x, a, b);
        assert false;
      }
      SwapAttached(f, a, b, x);
      InsideUnfolds(g, x, q);
      InsideUnfolds(f, x, q);
      InnerLine(f, a, b, f[x].parent, q);
    }
  }

  // ---------------------------------------------------------------- flags after the exchange

  ghost predicate Above(f: Forest, a: Con, b: Con, q: Con)
    requires Acyclic(f) && a in f && b in f
  {
    StrictlyInside(f, a, q) || StrictlyInside(f, b, q)
  }

  /** An urgent leaf under `q` that belongs to neither subtree. */
  ghost predicate OuterUrgent(f: Forest, a: Con, b: Con, q: Con)
    requires Acyclic(f)
  {
    exists l :: l in f && UrgentLeaf(f, l) && Inside(f, l, q) && !Inside(f, l, a) && !Inside(f, l, b)
  }

  /** All a container above the two is known to be: flagged, if it has an urgent
    * leaf elsewhere.  Any other flag is exact. */
  ghost predicate FlagAlmostExact(f: Forest, a: Con, b: Con, q: Con)
    requires Acyclic(f) && a in f && b in f && q in f
  {
    Tracked(f, q) && !Leaf(f, q) ==>
      if Above(f, a, b, q) then OuterUrgent(f, a, b, q) ==> f[q].urgent
      else f[q].urgent <==> UrgentUnder(f, q)
  }

  /** Two containers with their own flags right, neither above the other. */
  ghost predicate Pair(f: Forest, a: Con, b: Con) {
    && WellFormed(f) && FloatsOnWorkspaces(f) && a in f && b in f && a != b
    && f[a].ty == Plain && f[b].ty == Plain
    && Settled(f, a) && Settled(f, b) && !Inside(f, a, b) && !Inside(f, b, a)
  }

  /** The ancestors of one are those the other had. */
  lemma PlacesAbove(f: Forest, a: Con, b: Con, q: Con)
    requires CanSwap(f, a, b) && q in f
    ensures WellFormed(Swap(f, a, b))
    ensures StrictlyInside(Swap(f, a, b), a, q) == StrictlyInside(f, b, q)
    ensures StrictlyInside(Swap(f, a, b), b, q) == StrictlyInside(f, a, q)
  {
    InnerLine(f, a, b, a, q);
    SwapSymmetric(f, a, b);
    InnerLine(f, b, a, b, q);
    TopOnly(f, a, q);
    TopOnly(f, b, q);
  }

  /** Seen from a container above neither place, the exchange changes nothing. */
  lemma SwapBelow(f: Forest, a: Con, b: Con, q: Con, x: Con)
    requires CanSwap(f, a, b) && q in f && x in f
    requires WellFormed(Swap(f, a, b)) && !Above(Swap(f, a, b), a, b, q)
    ensures Inside(Swap(f, a, b), x, q) == Inside(f, x, q)
  {
    PlacesAbove(f, a, b, q);
    if Inside(f, x, a) {
      InnerLine(f, a, b, x, q);
      if Inside(f, x, q) { AncestorsCompare(f, x, a, q); }
    } else if Inside(f, x, b) {
      SwapSymmetric(f, a, b);
      InnerLine(f, b, a, x, q);
      if Inside(f, x, q) { AncestorsCompare(f, x, b, q); }
    } else {
      OuterLine(f, a, b, x);
    }
  }

  /** What goes with the container, not with its place. */
  lemma SwapKeepsOwn(f: Forest, a: Con, b: Con, x: Con)
    requires a in f && b in f && x in f
    ensures var m, n := Swap(f, a, b)[x], f[x];
            m.ty == n.ty && m.urgent == n.urgent && |m.nodes| == |n.nodes| && m.floats == n.floats
  {
  }

  lemma BoundaryStays(f: Forest, a: Con, b: Con, q: Con, x: Con)
    requires CanSwap(f, a, b) && q in f && x in f && Tracked(f, a) && Tracked(f, b) && Boundary(f[x])
    ensures WellFormed(Swap(f, a, b)) && Inside(Swap(f, a, b), x, q) == Inside(f, x, q)
  {
    OuterLine(f, a, b, x);
  }

  /** Both subtrees lie below the workspaces, so swapping them moves no
    * workspace below `q`. */
  lemma SwapTracked(f: Forest, a: Con, b: Con, q: Con)
    requires CanSwap(f, a, b) && q in f && Tracked(f, a) && Tracked(f, b)
    ensures WellFormed(Swap(f, a, b)) && Tracked(Swap(f, a, b), q) == Tracked(f, q)
  {
    SwapKeeps(f, a, b);
    var g := Swap(f, a, b);
    forall x | x in f ensures (Inside(g, x, q) && Boundary(g[x])) == (Inside(f, x, q) && Boundary(f[x])) {
      SwapKeepsOwn(f, a, b, x);
      if Boundary(f[x]) { BoundaryStays(f, a, b, q, x); }
    }
  }

  lemma SwapUrgentLeaf(f: Forest, a: Con, b: Con, l: Con)
    requires CanSwap(f, a, b) && l in f
    ensures UrgentLeaf(Swap(f, a, b), l) == UrgentLeaf(f, l) && Leaf(Swap(f, a, b), l) == Leaf(f, l)
  {
    assert |Swap(f, a, b)[l].nodes| == |f[l].nodes|;
  }

  lemma SwapUrgentUnder(f: Forest, a: Con, b: Con, q: Con)
    requires CanSwap(f, a, b) && q in f
    requires WellFormed(Swap(f, a, b)) && !Above(Swap(f, a, b), a, b, q)
    ensures UrgentUnder(Swap(f, a, b), q) == UrgentUnder(f, q)
  {
    var g := Swap(f, a, b);
    forall l | l in f ensures (UrgentLeaf(g, l) && Inside(g, l, q)) == (UrgentLeaf(f, l) && Inside(f, l, q)) {
      SwapUrgentLeaf(f, a, b, l);
      SwapBelow(f, a, b, q, l);
    }
  }

  lemma SwapOuterUrgent(f: Forest, a: Con, b: Con, q: Con)
    requires CanSwap(f, a, b) && q in f && WellFormed(Swap(f, a, b)) && OuterUrgent(Swap(f, a, b), a, b, q)
    ensures UrgentUnder(f, q)
  {
    var g := Swap(f, a, b);
    var l :| l in g && UrgentLeaf(g, l) && Inside(g, l, q) && !Inside(g, l, a) && !Inside(g, l, b);
    SwapUrgentLeaf(f, a, b, l);
    if Inside(f, l, a) { InnerLine(f, a, b, l, a); }
    if Inside(f, l, b) { SwapSymmetric(f, a, b); InnerLine(f, b, a, l, b); }
    OuterLine(f, a, b, l);
  }

  /** Right after the exchange the flags are almost exact. */
  lemma SwapAlmostExact(f: Forest, a: Con, b: Con, q: Con)
    requires CanSwap(f, a, b) && q in f && FlagExact(f, q) && Tracked(f, a) && Tracked(f, b)
    ensures WellFormed(Swap(f, a, b)) && FlagAlmostExact(Swap(f, a, b), a, b, q)
  {
    SwapTracked(f, a, b, q);
    SwapKeepsOwn(f, a, b, q);
    if Above(Swap(f, a, b), a, b, q) {
      if OuterUrgent(Swap(f, a, b), a, b, q) { SwapOuterUrgent(f, a, b, q); }
    } else {
      SwapUrgentUnder(f, a, b, q);
    }
  }

  lemma SwapSettled(f: Forest, a: Con, b: Con)
    requires CanSwap(f, a, b) && Pair(f, a, b)
    ensures WellFormed(Swap(f, a, b)) && Settled(Swap(f, a, b), a) && !Inside(Swap(f, a, b), a, b)
  {
    SwapTracked(f, a, b, a);
    PlacesAbove(f, a, b, a);
    PlacesAbove(f, a, b, b);
    SwapUrgentUnder(f, a, b, a);
  }

  lemma SwapFloats(f: Forest, a: Con, b: Con)
    requires a in f && b in f && f[a].ty == f[b].ty == Plain && FloatsOnWorkspaces(f)
    ensures FloatsOnWorkspaces(Swap(f, a, b)) && Swap(f, a, b)[a].ty == Swap(f, a, b)[b].ty == Plain
  {
    assert forall p :: p in f ==> Swap(f, a, b)[p].floats == f[p].floats && Swap(f, a, b)[p].ty == f[p].ty;
  }

  lemma SwapPair(f: Forest, a: Con, b: Con)
    requires CanSwap(f, a, b) && Pair(f, a, b)
    ensures Pair(Swap(f, a, b), a, b)
  {
    SwapSettled(f, a, b);
    SwapSettled(f, b, a);
    SwapSymmetric(f, a, b);
    SwapFloats(f, a, b);
  }

  // ---------------------------------------------------------------- the two calls

  /** con_set_urgency(c, c->urgent) is ignored. */
  ghost predicate Skipped(f: Forest, focused: Con?, c: Con)
    requires c in f
  {
    Ignored(focused, c, f[c].urgent)
  }

  ghost function Rehinted(f: Forest, focused: Con?, c: Con): Forest
    requires WellFormed(f) && c in f
  {
    SetUrgency(f, focused, c, f[c].urgent)
  }

  lemma RehintedTree(f: Forest, focused: Con?, c: Con)
    requires WellFormed(f) && c in f
    ensures WellFormed(Rehinted(f, focused, c)) && Reflagged(f, Rehinted(f, focused, c))
  {
    HintedKeeps(f, c, f[c].urgent);
    ReflagKeeps(f, Rehinted(f, focused, c));
  }

  /** Only flags differ, and none that decides what is urgent under what. */
  ghost predicate FlagsOnly(f: Forest, h: Forest)
    requires WellFormed(f)
  {
    && WellFormed(h) && Reflagged(f, h) && (FloatsOnWorkspaces(f) ==> FloatsOnWorkspaces(h))
    && (forall x {:trigger Line(h, x)} :: x in f ==> Line(h, x) == Line(f, x))
    && (forall x {:trigger Tracked(h, x)} :: x in f ==> Tracked(h, x) == Tracked(f, x))
    && (forall x {:trigger UrgentUnder(h, x)} :: x in f ==> UrgentUnder(h, x) == UrgentUnder(f, x))
  }

  lemma UpdateParentsFlagsOnly(f: Forest, c: Con)
    requires WellFormed(f) && FloatsOnWorkspaces(f) && c in f && Tracked(f, c)
    ensures FlagsOnly(f, UpdateParents(f, c))
  {
    UpdateParentsEffect(f, c);
    ReflagKeeps(f, UpdateParents(f, c));
  }

  lemma RehintedIs(f: Forest, focused: Con?, c: Con)
    requires WellFormed(f) && c in f && f[c].ty == Plain
    ensures Rehinted(f, focused, c) == if Skipped(f, focused, c) then f else UpdateParents(f, c)
  {
    assert Hinted(f, c, f[c].urgent) == f;
  }

  /** What one call leaves as it was. */
  lemma RehintedKeeps(f: Forest, focused: Con?, c: Con)
    requires WellFormed(f) && FloatsOnWorkspaces(f) && c in f && f[c].ty == Plain && Tracked(f, c)
    ensures FlagsOnly(f, Rehinted(f, focused, c))
  {
    RehintedIs(f, focused, c);
    UpdateParentsFlagsOnly(f, c);
  }

  /** Its effect on `q`'s flag. */
  lemma RehintedFlag(f: Forest, focused: Con?, c: Con, q: Con)
    requires WellFormed(f) && FloatsOnWorkspaces(f) && c in f && f[c].ty == Plain && Settled(f, c)
    requires q in f && Tracked(f, q)
    ensures var h := Rehinted(f, focused, c);
            q in h && (h[q].urgent <==>
              if StrictlyInside(f, c, q) && !Skipped(f, focused, c) then f[c].urgent ||
                (f[q].urgent && UrgentUnder(f, q))
              else f[q].urgent)
  {
    RehintedIs(f, focused, c);
    FlagAfter(f, c, q);
  }

  lemma RehintedPair(f: Forest, focused: Con?, a: Con, b: Con)
    requires Pair(f, a, b)
    ensures var h := Rehinted(f, focused, a); Pair(h, a, b) && h[b].urgent == f[b].urgent && h[a].urgent == f[a].urgent
  {
    RehintedKeeps(f, focused, a);
    RehintedFlag(f, focused, a, b);
    RehintedFlag(f, focused, a, a);
  }

  /** con_set_urgency on the first, then on the second. */
  ghost function BothRehinted(f: Forest, focused: Con?, a: Con, b: Con): Forest
    requires WellFormed(f) && a in f && b in f
  {
    RehintedTree(f, focused, a);
    Rehinted(Rehinted(f, focused, a), focused, b)
  }

  lemma BothFlags(f: Forest, focused: Con?, a: Con, b: Con, q: Con)
    requires Pair(f, a, b) && q in f && Tracked(f, q)
    ensures var k := BothRehinted(f, focused, a, b);
            var aFlag := if StrictlyInside(f, a, q) && !Skipped(f, focused, a) then f[a].urgent ||
              (f[q].urgent && UrgentUnder(f, q)) else f[q].urgent;
            q in k && (k[q].urgent <==>
              if StrictlyInside(f, b, q) && !Skipped(f, focused, b) then f[b].urgent ||
                (aFlag && UrgentUnder(f, q)) else aFlag)
  {
    var h := Rehinted(f, focused, a);
    RehintedPair(f, focused, a, b);
    RehintedKeeps(f, focused, a);
    RehintedFlag(f, focused, a, q);
    RehintedFlag(h, focused, b, q);
  }

  lemma BothKeep(f: Forest, focused: Con?, a: Con, b: Con, q: Con)
    requires Pair(f, a, b) && q in f
    ensures var k := BothRehinted(f, focused, a, b);
            && WellFormed(k) && k.Keys == f.Keys && Leaf(k, q) == Leaf(f, q)
            && Tracked(k, q) == Tracked(f, q) && UrgentUnder(k, q) == UrgentUnder(f, q)
  {
    var h := Rehinted(f, focused, a);
    RehintedPair(f, focused, a, b);
    RehintedKeeps(f, focused, a);
    RehintedKeeps(h, focused, b);
  }

  lemma UrgentOneSide(f: Forest, a: Con, b: Con, q: Con, l: Con)
    requires Pair(f, a, b) && q in f && Above(f, a, b, q) && UrgentLeaf(f, l) && Inside(f, l, q) && Inside(f, l, a)
    ensures StrictlyInside(f, a, q) && f[a].urgent
  {
    AncestorsCompare(f, l, a, q);
    if !StrictlyInside(f, a, q) {
      InsideTrans(f, b, q, a);
    }
  }

  /** The urgent leaves under `q` are in one subtree, in the other, or outer. */
  lemma UrgentWhere(f: Forest, a: Con, b: Con, q: Con)
    requires Pair(f, a, b) && q in f && Above(f, a, b, q)
    ensures UrgentUnder(f, q) <==>
            OuterUrgent(f, a, b, q) || (StrictlyInside(f, a, q) && f[a].urgent) ||
              (StrictlyInside(f, b, q) && f[b].urgent)
  {
    if StrictlyInside(f, a, q) && f[a].urgent { UrgentAbove(f, a, q); }
    if StrictlyInside(f, b, q) && f[b].urgent { UrgentAbove(f, b, q); }
    if UrgentUnder(f, q) && !OuterUrgent(f, a, b, q) {
      var l :| l in f && UrgentLeaf(f, l) && Inside(f, l, q);
      if Inside(f, l, a) { UrgentOneSide(f, a, b, q, l); } else { UrgentOneSide(f, b, a, q, l); }
    }
  }

  /** What an ignored hint needs: that the flags above its container are up
    * already, or go up with the other call. */
  ghost predicate Covered(f: Forest, focused: Con?, a: Con, b: Con, q: Con)
    requires Acyclic(f) && a in f && b in f && q in f
  {
    Skipped(f, focused, a) && StrictlyInside(f, a, q) && Tracked(f, q) ==>
      f[q].urgent || (f[b].urgent && StrictlyInside(f, b, q))
  }

  lemma LeafOrAbove(f: Forest, a: Con, q: Con)
    requires WellFormed(f) && FloatsOnWorkspaces(f) && a in f && q in f && Tracked(f, q)
    ensures StrictlyInside(f, a, q) ==> !Leaf(f, q)
  {
    assert Inside(f, q, q);
    if StrictlyInside(f, a, q) && Leaf(f, q) {
      LeafAlone(f, q);
    }
  }

  lemma AboveSplit(f: Forest, a: Con, b: Con, q: Con)
    requires Pair(f, a, b) && q in f && Above(f, a, b, q) && Tracked(f, q)
    ensures !Leaf(f, q)
  {
    LeafOrAbove(f, a, q);
    LeafOrAbove(f, b, q);
  }

  lemma BothExactAt(f: Forest, focused: Con?, a: Con, b: Con, q: Con)
    requires Pair(f, a, b) && q in f && FlagAlmostExact(f, a, b, q)
    ensures WellFormed(BothRehinted(f, focused, a, b)) && q in BothRehinted(f, focused, a, b)
    ensures FlagExact(BothRehinted(f, focused, a, b), q) <==>
            Covered(f, focused, a, b, q) && Covered(f, focused, b, a, q)
  {
    BothKeep(f, focused, a, b, q);
    if Tracked(f, q) {
      BothFlags(f, focused, a, b, q);
      if Above(f, a, b, q) {
        UrgentWhere(f, a, b, q);
        AboveSplit(f, a, b, q);
      }
    }
  }

  // ---------------------------------------------------------------- across the swap

  /** Seen before the swap: if `a` has the focus and is urgent, its hint is
    * ignored, and a container above `b` must carry the flag already. */
  ghost predicate ReadyAt(f: Forest, focused: Con?, a: Con, b: Con, q: Con)
    requires Acyclic(f) && a in f && b in f && q in f
  {
    Skipped(f, focused, a) && StrictlyInside(f, b, q) && Tracked(f, q) ==> f[q].urgent
  }

  lemma PairOfExact(f: Forest, a: Con, b: Con)
    requires CanSwap(f, a, b) && FloatsOnWorkspaces(f) && Exact(f) && Tracked(f, a) && Tracked(f, b)
    ensures Pair(f, a, b)
  {
    assert Inside(f, a, a) && Inside(f, b, b);
    assert FlagExact(f, a) && FlagExact(f, b);
    if Leaf(f, a) { LeafAlone(f, a); }
    if Leaf(f, b) { LeafAlone(f, b); }
  }

  lemma CoveredBySwap(f: Forest, focused: Con?, a: Con, b: Con, q: Con)
    requires CanSwap(f, a, b) && Pair(f, a, b) && Pair(Swap(f, a, b), a, b) && q in f && FlagExact(f, q)
    ensures Covered(Swap(f, a, b), focused, a, b, q) <==> ReadyAt(f, focused, a, b, q)
  {
    PlacesAbove(f, a, b, q);
    SwapTracked(f, a, b, q);
    SwapKeepsOwn(f, a, b, q);
    SwapKeepsOwn(f, a, b, a);
    SwapKeepsOwn(f, a, b, b);
    if f[a].urgent && StrictlyInside(f, a, q) && Tracked(f, q) {
      UrgentAbove(f, a, q);
      LeafOrAbove(f, a, q);
    }
  }
}
