/** con_swap up to its urgency calls: the exchange, the focus put back where it
  * was looked for, and the hints of both containers sent up anew. */
module SwapFocus {
  import opened Containers
  import opened Swapping
  import opened Focus
  import opened Urgency
  import opened SwapUrgency
  import opened FocusUrgency
  import opened Workspaces

  // ---------------------------------------------------------------- what con_swap does

  /** What con_swap focuses after the exchange: what has the focus, if all is on
    * one workspace; otherwise the container that comes to the place of the one
    * with the focus in it; nothing, if neither has. */
  ghost function Restored(f: Forest, focused: Con, a: Con, b: Con): (r: Con?)
    requires Acyclic(f) && a in f && b in f && focused in f
    ensures r != null ==> r in f
  {
    var ws := WorkspaceOf(f, a);
    if ws == WorkspaceOf(f, b) && ws == WorkspaceOf(f, focused) then focused
    else if Inside(f, focused, a) then b
    else if Inside(f, focused, b) then a
    else null
  }

  ghost function NewFocus(f: Forest, focused: Con, a: Con, b: Con): Con
    requires Acyclic(f) && a in f && b in f && focused in f
  {
    var r := Restored(f, focused, a, b);
    if r == null then focused else r
  }

  /** The exchange, the focus, and con_set_urgency on both. */
  ghost function SwapFully(f: Forest, focused: Con, a: Con, b: Con): Forest
    requires CanSwap(f, a, b) && FloatsOnWorkspaces(f) && focused in f
  {
    SwapKeeps(f, a, b);
    SwapFloats(f, a, b);
    BothRehinted(Refocus(Swap(f, a, b), Restored(f, focused, a, b)), NewFocus(f, focused, a, b), a, b)
  }

  // ---------------------------------------------------------------- flags in between

  lemma SameOuter(f: Forest, g: Forest, a: Con, b: Con, q: Con)
    requires Acyclic(f) && Acyclic(g) && SameFlags(f, g)
    requires forall x :: x in f ==> Line(g, x) == Line(f, x)
    ensures OuterUrgent(g, a, b, q) ==> OuterUrgent(f, a, b, q)
  {
    if OuterUrgent(g, a, b, q) {
      var l :| l in g && UrgentLeaf(g, l) && Inside(g, l, q) && !Inside(g, l, a) && !Inside(g, l, b);
      assert UrgentLeaf(f, l) && Inside(f, l, q);
    }
  }

  lemma SameTracked(f: Forest, g: Forest, q: Con)
    requires Acyclic(f) && Acyclic(g) && SameFlags(f, g) && q in f
    requires forall x :: x in f ==> Line(g, x) == Line(f, x)
    ensures Tracked(g, q) == Tracked(f, q)
  {
    assert forall x :: x in f && Inside(f, x, q) ==> Inside(g, x, q) && Boundary(f[x]) == Boundary(g[x]);
    assert forall x :: x in g && Inside(g, x, q) ==> Inside(f, x, q) && Boundary(f[x]) == Boundary(g[x]);
  }

  /** Neither the order of the focus lists ... */
  lemma RaisedAlmost(f: Forest, g: Forest, a: Con, b: Con, q: Con)
    requires Acyclic(f) && Acyclic(g) && SameFlags(f, g) && a in f && b in f && q in f
    requires forall x :: x in f ==> Line(g, x) == Line(f, x)
    requires FlagAlmostExact(f, a, b, q)
    ensures FlagAlmostExact(g, a, b, q)
  {
    SameTracked(f, g, q);
    SameOuter(f, g, a, b, q);
    SameUrgent(f, g, q);
  }

  lemma CalmerOuter(f: Forest, h: Forest, a: Con, b: Con, q: Con)
    requires Acyclic(f) && Calmer(f, h)
    ensures OuterUrgent(h, a, b, q) ==> OuterUrgent(f, a, b, q) && (q in h ==> UrgentUnder(h, q))
  {
    if OuterUrgent(h, a, b, q) {
      var l :| l in h && UrgentLeaf(h, l) && Inside(h, l, q) && !Inside(h, l, a) && !Inside(h, l, b);
      assert UrgentLeaf(f, l);
    }
  }

  lemma CalmerAlmost(f: Forest, h: Forest, c: Con, a: Con, b: Con, q: Con)
    requires Acyclic(f) && Calmer(f, h) && c in f && Leaf(f, c) && a in f && b in f && q in f && q != c
    requires Tracked(f, q) && !Leaf(f, q) && FlagAlmostExact(f, a, b, q)
    requires h[q].urgent <==>
             if StrictlyInside(f, c, q) then h[c].urgent || (f[q].urgent && UrgentUnder(h, q)) else f[q].urgent
    requires UrgentUnder(h, q) ==> UrgentUnder(f, q)
    requires !Inside(f, c, q) ==> UrgentUnder(h, q) == UrgentUnder(f, q)
    requires Inside(f, c, q) && h[c].urgent ==> UrgentUnder(h, q)
    ensures FlagAlmostExact(h, a, b, q)
  {
    CalmerOuter(f, h, a, b, q);
  }

  /** ... nor the hint taken back makes a flag less exact than it was. */
  lemma CalmedAlmost(f: Forest, c: Con, a: Con, b: Con, q: Con)
    requires WellFormed(f) && FloatsOnWorkspaces(f) && c in f && a in f && b in f && q in f
    requires FlagAlmostExact(f, a, b, q)
    ensures WellFormed(Calmed(f, c)) && FlagAlmostExact(Calmed(f, c), a, b, q)
  {
    var h := Calmed(f, c);
    CalmedCalmer(f, c);
    CalmedUrgentUnder(f, c, q);
    if f[c].urgent && Leaf(f, c) && Tracked(f, q) && !Leaf(f, q) {
      CalmedFlag(f, c, q);
      CalmerAlmost(f, h, c, a, b, q);
    } else if Tracked(f, q) && !Leaf(f, q) {
      assert h == f;
    }
  }

  lemma RefocusAlmost(f: Forest, r: Con?, a: Con, b: Con, q: Con)
    requires WellFormed(f) && FloatsOnWorkspaces(f) && (r != null ==> r in f) && a in f && b in f && q in f
    requires FlagAlmostExact(f, a, b, q)
    ensures FlagAlmostExact(Refocus(f, r), a, b, q)
  {
    if r != null {
      Raised(f, r);
      var g := FocusUp(f, Line(f, r));
      RaisedAlmost(f, g, a, b, q);
      CalmedAlmost(g, r, a, b, q);
    }
  }

  /** The tree is the same, and so is where hints are kept. */
  lemma RefocusKeepsTree(f: Forest, r: Con?, x: Con)
    requires WellFormed(f) && FloatsOnWorkspaces(f) && (r != null ==> r in f) && x in f
    ensures var h := Refocus(f, r);
            && Line(h, x) == Line(f, x) && Tracked(h, x) == Tracked(f, x)
            && h[x].ty == f[x].ty && h[x].nodes == f[x].nodes
  {
    if r != null {
      Raised(f, r);
      var g := FocusUp(f, Line(f, r));
      SameTracked(f, g, x);
      CalmedKeeps(g, r);
    }
  }

  lemma SettledFrom(h: Forest, a: Con, b: Con)
    requires WellFormed(h) && FloatsOnWorkspaces(h) && a in h && b in h && h[a].ty == Plain
    requires Tracked(h, a) && FlagAlmostExact(h, a, b, a) && !Inside(h, b, a)
    ensures Settled(h, a)
  {
    if Leaf(h, a) { LeafAlone(h, a); }
  }

  lemma RefocusSettled(f: Forest, r: Con?, a: Con, b: Con)
    requires Pair(f, a, b) && (r != null ==> r in f)
    ensures var h := Refocus(f, r);
            Settled(h, a) && h[a].ty == Plain && !Inside(h, a, b)
  {
    RefocusKeepsTree(f, r, a);
    RefocusKeepsTree(f, r, b);
    RefocusAlmost(f, r, a, b, a);
    SettledFrom(Refocus(f, r), a, b);
  }

  /** Both containers' own flags are right before their hints are sent up. */
  lemma RefocusPair(f: Forest, r: Con?, a: Con, b: Con)
    requires Pair(f, a, b) && (r != null ==> r in f)
    ensures Pair(Refocus(f, r), a, b)
  {
    RefocusSettled(f, r, a, b);
    RefocusSettled(f, r, b, a);
  }

  // ---------------------------------------------------------------- exactly when they end up exact

  /** Every container above `c` that keeps hints has the flag. */
  ghost predicate FlaggedAbove(f: Forest, c: Con)
    requires Acyclic(f) && c in f
  {
    forall q {:trigger f[q]} :: q in f && StrictlyInside(f, c, q) && Tracked(f, q) ==> f[q].urgent
  }

  ghost predicate UrgentSplit(f: Forest, c: Con)
    requires c in f
  {
    f[c].urgent && !Leaf(f, c)
  }

  /** If the hint of `a` is the one that gets lost, the containers at whose place
    * it arrives do not need it. */
  ghost predicate Arrives(f: Forest, focused: Con, a: Con, b: Con)
    requires Acyclic(f) && a in f && b in f
  {
    focused == a && UrgentSplit(f, a) ==> FlaggedAbove(f, b)
  }

  ghost predicate ArrivesAt(f: Forest, focused: Con, a: Con, b: Con, q: Con)
    requires Acyclic(f) && a in f && b in f && q in f
  {
    focused == a && UrgentSplit(f, a) && StrictlyInside(f, b, q) && Tracked(f, q) ==> f[q].urgent
  }

  /** The focus reaches `a` only by being put there. */
  lemma FocusIsRestored(f: Forest, focused: Con, a: Con, b: Con)
    requires CanSwap(f, a, b) && focused in f
    ensures NewFocus(f, focused, a, b) == a || NewFocus(f, focused, a, b) == b ==>
              Restored(f, focused, a, b) == NewFocus(f, focused, a, b)
  {
    assert Inside(f, a, a) && Inside(f, b, b);
  }

  /** A leaf that just got the focus is calm, or its timer keeps it urgent and the
    * flags above it went up with it. */
  lemma LeafCovered(f: Forest, a: Con, b: Con, q: Con)
    requires Pair(f, a, b) && q in f && Leaf(f, a) && Pair(Refocus(f, a), a, b)
    ensures Covered(Refocus(f, a), a, a, b, q)
  {
    Raised(f, a);
    var g := FocusUp(f, Line(f, a));
    CalmedKeeps(g, a);
    assert g[a].urgent == f[a].urgent && Leaf(g, a);
    if g[a].urgent && StrictlyInside(g, a, q) && Tracked(g, q) {
      CalmedFlag(g, a, q);
    }
  }

  lemma RefocusSplit(f: Forest, a: Con)
    requires WellFormed(f) && FloatsOnWorkspaces(f) && a in f && !Leaf(f, a)
    ensures SameFlags(f, Refocus(f, a)) && forall x :: x in f ==> Line(Refocus(f, a), x) == Line(f, x)
  {
    Raised(f, a);
    var g := FocusUp(f, Line(f, a));
    assert !Leaf(g, a);
  }

  lemma SameCovered(f: Forest, g: Forest, a: Con, b: Con, q: Con)
    requires Acyclic(f) && Acyclic(g) && SameFlags(f, g) && a in f && b in f && q in f
    requires forall x :: x in f ==> Line(g, x) == Line(f, x)
    ensures Covered(g, a, a, b, q) == Covered(f, a, a, b, q)
  {
    SameTracked(f, g, q);
  }

  /** For a split the focus changes no flag. */
  lemma SplitCovered(f: Forest, a: Con, b: Con, q: Con)
    requires Pair(f, a, b) && q in f && !Leaf(f, a) && Pair(Refocus(f, a), a, b)
    ensures Covered(Refocus(f, a), a, a, b, q) == Covered(f, a, a, b, q)
  {
    Raised(f, a);
    RefocusSplit(f, a);
    SameCovered(f, Refocus(f, a), a, b, q);
  }

  lemma CoveredFully(f: Forest, r: Con?, focused: Con, a: Con, b: Con, q: Con)
    requires CanSwap(f, a, b) && Pair(f, a, b) && Pair(Swap(f, a, b), a, b) && q in f && FlagExact(f, q)
    requires (r != null ==> r in f) && (focused == a ==> r == a) && Pair(Refocus(Swap(f, a, b), r), a, b)
    ensures Covered(Refocus(Swap(f, a, b), r), focused, a, b, q) <==> ArrivesAt(f, focused, a, b, q)
  {
    var g := Swap(f, a, b);
    if focused == a {
      SwapUrgentLeaf(f, a, b, a);
      if Leaf(f, a) {
        LeafCovered(g, a, b, q);
      } else {
        SplitCovered(g, a, b, q);
        CoveredBySwap(f, a, a, b, q);
      }
    }
  }

  lemma SwapFlagAt(f: Forest, focused: Con, a: Con, b: Con, q: Con)
    requires CanSwap(f, a, b) && Pair(f, a, b) && focused in f && q in f && FlagExact(f, q)
    ensures WellFormed(SwapFully(f, focused, a, b)) && q in SwapFully(f, focused, a, b)
    ensures FlagExact(SwapFully(f, focused, a, b), q) <==>
              ArrivesAt(f, NewFocus(f, focused, a, b), a, b, q) && ArrivesAt(f, NewFocus(f, focused, a, b), b, a, q)
  {
    var g, r, focus := Swap(f, a, b), Restored(f, focused, a, b), NewFocus(f, focused, a, b);
    SwapPair(f, a, b);
    RefocusPair(g, r, a, b);
    SwapAlmostExact(f, a, b, q);
    RefocusAlmost(g, r, a, b, q);
    BothExactAt(Refocus(g, r), focus, a, b, q);
    FocusIsRestored(f, focused, a, b);
    CoveredFully(f, r, focus, a, b, q);
    SwapSymmetric(f, a, b);
    CoveredFully(f, r, focus, b, a, q);
  }

  lemma BothShape(g: Forest, r: Con?, focus: Con, a: Con, b: Con)
    requires WellFormed(g) && FloatsOnWorkspaces(g) && (r != null ==> r in g) && a in g && b in g
    ensures var k := BothRehinted(Refocus(g, r), focus, a, b); WellFormed(k) && k.Keys == g.Keys
  {
    var h := Refocus(g, r);
    RehintedTree(h, focus, a);
    RehintedTree(Rehinted(h, focus, a), focus, b);
  }

  lemma SwapFullyShape(f: Forest, focused: Con, a: Con, b: Con)
    requires CanSwap(f, a, b) && FloatsOnWorkspaces(f) && focused in f
    ensures WellFormed(SwapFully(f, focused, a, b)) && SwapFully(f, focused, a, b).Keys == f.Keys
  {
    SwapKeeps(f, a, b);
    SwapFloats(f, a, b);
    BothShape(Swap(f, a, b), Restored(f, focused, a, b), NewFocus(f, focused, a, b), a, b);
  }

  lemma ArrivesEach(f: Forest, focused: Con, a: Con, b: Con, q: Con)
    requires Acyclic(f) && a in f && b in f && q in f && Arrives(f, focused, a, b)
    ensures ArrivesAt(f, focused, a, b, q)
  {
    if focused == a && UrgentSplit(f, a) { assert StrictlyInside(f, b, q) && Tracked(f, q) ==> f[q].urgent; }
  }

  lemma ArrivesAll(f: Forest, focused: Con, a: Con, b: Con)
    requires Acyclic(f) && a in f && b in f
    requires forall q :: q in f ==> ArrivesAt(f, focused, a, b, q)
    ensures Arrives(f, focused, a, b)
  {
    forall q | q in f && StrictlyInside(f, b, q) && Tracked(f, q) && focused == a && UrgentSplit(f, a)
      ensures f[q].urgent
    {
      assert ArrivesAt(f, focused, a, b, q);
    }
  }

  lemma ExactIff(f: Forest, k: Forest, focus: Con, a: Con, b: Con)
    requires Acyclic(f) && Acyclic(k) && k.Keys == f.Keys && a in f && b in f
    requires forall q :: q in f ==> (FlagExact(k, q) <==> ArrivesAt(f, focus, a, b, q) && ArrivesAt(f, focus, b, a, q))
    ensures Exact(k) <==> Arrives(f, focus, a, b) && Arrives(f, focus, b, a)
  {
    if Arrives(f, focus, a, b) && Arrives(f, focus, b, a) {
      forall q | q in f ensures FlagExact(k, q) {
        ArrivesEach(f, focus, a, b, q);
        ArrivesEach(f, focus, b, a, q);
      }
    }
    if Exact(k) {
      forall q | q in f ensures ArrivesAt(f, focus, a, b, q) && ArrivesAt(f, focus, b, a, q) {
        assert FlagExact(k, q);
      }
      ArrivesAll(f, focus, a, b);
      ArrivesAll(f, focus, b, a);
    }
  }

  /** con_swap leaves every flag exact if and only if, when the container that
    * has the focus after it is an urgent split it swapped, all containers above
    * the place that split comes to had the flag before. */
  lemma SwapFlags(f: Forest, focused: Con, a: Con, b: Con)
    requires CanSwap(f, a, b) && FloatsOnWorkspaces(f) && Exact(f) && Tracked(f, a) && Tracked(f, b) && focused in f
    ensures WellFormed(SwapFully(f, focused, a, b))
    ensures Exact(SwapFully(f, focused, a, b)) <==>
              Arrives(f, NewFocus(f, focused, a, b), a, b) && Arrives(f, NewFocus(f, focused, a, b), b, a)
  {
    PairOfExact(f, a, b);
    SwapFullyShape(f, focused, a, b);
    var k, focus := SwapFully(f, focused, a, b), NewFocus(f, focused, a, b);
    forall q | q in f ensures FlagExact(k, q) <==> ArrivesAt(f, focus, a, b, q) && ArrivesAt(f, focus, b, a, q) {
      assert FlagExact(f, q);
      SwapFlagAt(f, focused, a, b, q);
    }
    ExactIff(f, k, focus, a, b);
  }

  /** In particular, swapping two windows always does. */
  lemma SwapWindows(f: Forest, focused: Con, a: Con, b: Con)
    requires CanSwap(f, a, b) && FloatsOnWorkspaces(f) && Exact(f) && Tracked(f, a) && Tracked(f, b) && focused in f
    requires Leaf(f, a) && Leaf(f, b)
    ensures WellFormed(SwapFully(f, focused, a, b)) && Exact(SwapFully(f, focused, a, b))
  {
    SwapFlags(f, focused, a, b);
  }
}
