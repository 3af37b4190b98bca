/** con_focus in full: it also takes back the urgency hint of the leaf it focuses. */
module FocusUrgency {
  import opened Containers
  import opened Focus
  import opened Urgency
  import opened UrgencyOps
  import FocusOps

  lemma CalmedTree(f: Forest, c: Con)
    requires WellFormed(f) && FloatsOnWorkspaces(f) && c in f
    ensures WellFormed(SetUrgency(f, c, c, false)) && c in SetUrgency(f, c, c, false)
    ensures FloatsOnWorkspaces(SetUrgency(f, c, c, false)) && Reflagged(f, SetUrgency(f, c, c, false))
    ensures Line(SetUrgency(f, c, c, false), c) == Line(f, c)
  {
    HintedKeeps(f, c, false);
    var h := SetUrgency(f, c, c, false);
    assert Reflagged(f, h);
    ReflagKeeps(f, h);
  }

  /** What con_focus does to the flags once the lists are in order. */
  ghost function Calmed(f: Forest, c: Con): Forest
    requires WellFormed(f) && FloatsOnWorkspaces(f) && c in f
  {
    if f[c].urgent && Leaf(f, c) then
      CalmedTree(f, c);
      var g := SetUrgency(f, c, c, false);
      if f[c].ty == Workspace then g else UpdateParents(g, c)
    else f
  }

  lemma RefocusFloats(f: Forest, g: Forest)
    requires FloatsOnWorkspaces(f) && Refocused(f, g)
    ensures FloatsOnWorkspaces(g)
  {
    forall p | p in g ensures g[p].floats == f[p].floats && g[p].ty == f[p].ty {
      assert g[p] == f[p].(focus := g[p].focus);
    }
  }

  /** All that a flag's exactness depends on. */
  ghost predicate SameFlags(f: Forest, g: Forest) {
    g.Keys == f.Keys && forall p {:trigger g[p]} :: p in f ==>
      g[p].nodes == f[p].nodes && g[p].urgent == f[p].urgent && g[p].ty == f[p].ty
  }

  lemma SameFlag(f: Forest, g: Forest, q: Con)
    requires Acyclic(f) && Acyclic(g) && SameFlags(f, g) && q in f && FlagExact(f, q)
    requires forall x :: x in f ==> Line(g, x) == Line(f, x)
    ensures Tracked(g, q) == Tracked(f, q) && FlagExact(g, q)
  {
    SameUrgent(f, g, q);
    assert forall x :: x in f && Inside(f, x, q) ==> Inside(g, x, q) && Boundary(f[x]) == Boundary(g[x]);
    assert forall x :: x in g && Inside(g, x, q) ==> Inside(f, x, q) && Boundary(f[x]) == Boundary(g[x]);
  }

  lemma RefocusFlag(f: Forest, g: Forest, q: Con)
    requires Acyclic(f) && Acyclic(g) && Refocused(f, g) && q in f && FlagExact(f, q)
    requires forall x :: x in f ==> Line(g, x) == Line(f, x)
    ensures Tracked(g, q) == Tracked(f, q) && FlagExact(g, q)
  {
    assert SameFlags(f, g);
    SameFlag(f, g, q);
  }

  /** Reordering focus lists leaves the flags as exact as they were. */
  lemma RefocusExact(f: Forest, g: Forest)
    requires WellFormed(f) && FloatsOnWorkspaces(f) && Exact(f) && Refocused(f, g)
    ensures WellFormed(g) && FloatsOnWorkspaces(g) && Exact(g)
    ensures forall q :: q in f ==> Tracked(g, q) == Tracked(f, q)
  {
    RefocusKeeps(f, g);
    RefocusFloats(f, g);
    forall q | q in f ensures Tracked(g, q) == Tracked(f, q) && FlagExact(g, q) {
      assert FlagExact(f, q);
      RefocusFlag(f, g, q);
    }
  }

  /** Taking the hint back changes flags only. */
  lemma CalmedKeeps(f: Forest, c: Con)
    requires WellFormed(f) && FloatsOnWorkspaces(f) && c in f
    ensures Reflagged(f, Calmed(f, c)) && WellFormed(Calmed(f, c)) && FloatsOnWorkspaces(Calmed(f, c))
    ensures forall x :: x in f ==> Line(Calmed(f, c), x) == Line(f, x) && Tracked(Calmed(f, c), x) == Tracked(f, x)
  {
    CalmedTree(f, c);
    assert Reflagged(f, Calmed(f, c));
    ReflagKeeps(f, Calmed(f, c));
  }

  lemma LeafUnwritten(f: Forest, c: Con, l: Con)
    requires WellFormed(f) && FloatsOnWorkspaces(f) && c in f && l in f && Leaf(f, l)
    ensures UpdateParents(f, c)[l] == f[l]
  {
    UpsSplit(f, c, l);
  }

  lemma SetLeafUnwritten(f: Forest, c: Con, l: Con)
    requires WellFormed(f) && FloatsOnWorkspaces(f) && c in f && l in f && Leaf(f, l) && l != c
    ensures SetUrgency(f, c, c, false)[l] == f[l]
  {
    HintedKeeps(f, c, false);
    ReflagKeeps(f, Hinted(f, c, false));
    if f[c].ty != Workspace { LeafUnwritten(Hinted(f, c, false), c, l); }
  }

  /** Of the leaves only the one that got the focus can change. */
  lemma CalmedLeaf(f: Forest, c: Con, l: Con)
    requires WellFormed(f) && FloatsOnWorkspaces(f) && c in f && l in f && Leaf(f, l) && l != c
    ensures l in Calmed(f, c) && Calmed(f, c)[l] == f[l]
  {
    if f[c].urgent && Leaf(f, c) {
      CalmedTree(f, c);
      SetLeafUnwritten(f, c, l);
      if f[c].ty != Workspace { LeafUnwritten(SetUrgency(f, c, c, false), c, l); }
    }
  }

  lemma CalmedUrgentLeaf(f: Forest, c: Con, l: Con)
    requires WellFormed(f) && FloatsOnWorkspaces(f) && c in f && UrgentLeaf(Calmed(f, c), l)
    ensures UrgentLeaf(f, l)
  {
    CalmedKeeps(f, c);
    assert Leaf(f, l);
    if l != c { CalmedLeaf(f, c, l); }
  }

  /** The same tree, with no leaf more urgent than before. */
  ghost predicate Calmer(f: Forest, h: Forest)
    requires Acyclic(f)
  {
    && WellFormed(h) && h.Keys == f.Keys
    && (forall x {:trigger Line(h, x)} :: x in f ==> Line(h, x) == Line(f, x))
    && (forall x {:trigger Tracked(h, x)} :: x in f ==> Tracked(h, x) == Tracked(f, x))
    && (forall x {:trigger Leaf(h, x)} :: x in f ==> Leaf(h, x) == Leaf(f, x))
    && (forall l {:trigger UrgentLeaf(h, l)} :: l in f && UrgentLeaf(h, l) ==> UrgentLeaf(f, l))
  }

  lemma CalmerBy(f: Forest, h: Forest)
    requires Acyclic(f) && WellFormed(h) && Reflagged(f, h)
    requires forall x :: x in f ==> Line(h, x) == Line(f, x) && Tracked(h, x) == Tracked(f, x)
    requires forall l :: UrgentLeaf(h, l) ==> UrgentLeaf(f, l)
    ensures Calmer(f, h)
  {
    forall x | x in f ensures Leaf(h, x) == Leaf(f, x) {
      assert h[x] == f[x].(urgent := h[x].urgent);
    }
  }

  lemma CalmedCalmer(f: Forest, c: Con)
    requires WellFormed(f) && FloatsOnWorkspaces(f) && c in f
    ensures Calmer(f, Calmed(f, c))
  {
    CalmedKeeps(f, c);
    forall l ensures UrgentLeaf(Calmed(f, c), l) ==> UrgentLeaf(f, l) {
      if UrgentLeaf(Calmed(f, c), l) { CalmedUrgentLeaf(f, c, l); }
    }
    CalmerBy(f, Calmed(f, c));
  }

  lemma CalmedUrgentUnder(f: Forest, c: Con, q: Con)
    requires WellFormed(f) && FloatsOnWorkspaces(f) && c in f && q in f
    ensures var h := Calmed(f, c);
            && WellFormed(h) && q in h && c in h
            && (UrgentUnder(h, q) ==> UrgentUnder(f, q))
            && (!Inside(f, c, q) ==> UrgentUnder(h, q) == UrgentUnder(f, q))
            && (Inside(f, c, q) && Leaf(f, c) && h[c].urgent ==> UrgentUnder(h, q))
  {
    var h := Calmed(f, c);
    CalmedKeeps(f, c);
    if UrgentUnder(h, q) {
      var l :| l in h && UrgentLeaf(h, l) && Inside(h, l, q);
      CalmedUrgentLeaf(f, c, l);
      assert UrgentLeaf(f, l) && Inside(f, l, q);
    }
    if UrgentUnder(f, q) && !Inside(f, c, q) {
      var l :| l in f && UrgentLeaf(f, l) && Inside(f, l, q);
      CalmedLeaf(f, c, l);
      assert UrgentLeaf(h, l) && Inside(h, l, q);
    }
    if Inside(f, c, q) && Leaf(f, c) && h[c].urgent {
      assert UrgentLeaf(h, c) && Inside(h, c, q);
    }
  }

  lemma UntrackedFlag(f: Forest, c: Con, q: Con)
    requires WellFormed(f) && FloatsOnWorkspaces(f) && c in f && q in f && q != c && !Inside(f, c, q)
    ensures q in Calmed(f, c) && Calmed(f, c)[q].urgent == f[q].urgent
  {
    CalmedTree(f, c);
    if f[c].urgent && Leaf(f, c) {
      var g := Hinted(f, c, false);
      HintedKeeps(f, c, false);
      ReflagKeeps(f, g);
      UpsMeaning(g, c, q);
      ReflagKeeps(f, SetUrgency(f, c, c, false));
      UpsMeaning(SetUrgency(f, c, c, false), c, q);
    }
  }

  lemma TwiceUpdated(g: Forest, c: Con, q: Con)
    requires WellFormed(g) && FloatsOnWorkspaces(g) && c in g && Settled(g, c) && q in g && Tracked(g, q)
    ensures WellFormed(UpdateParents(g, c))
    ensures var h := UpdateParents(UpdateParents(g, c), c);
            WellFormed(h) && q in h && c in h && h[c].urgent == g[c].urgent &&
            (h[q].urgent <==> if StrictlyInside(g, c, q) then h[c].urgent || (g[q].urgent && UrgentUnder(h, q))
              else g[q].urgent)
  {
    var p := UpdateParents(g, c);
    UpdateParentsEffect(g, c);
    ReflagKeeps(g, p);
    UpdateParentsEffect(p, c);
    FlagAfter(g, c, q);
    FlagAfter(g, c, c);
    FlagAfter(p, c, q);
    FlagAfter(p, c, c);
  }

  lemma TrackedFlag(f: Forest, c: Con, q: Con)
    requires WellFormed(f) && FloatsOnWorkspaces(f) && c in f && f[c].urgent && Leaf(f, c) && Tracked(f, c)
    requires q in f && q != c && Tracked(f, q)
    ensures var h := Calmed(f, c);
            WellFormed(h) && q in h && c in h &&
            (h[q].urgent <==> if StrictlyInside(f, c, q) then h[c].urgent || (f[q].urgent && UrgentUnder(h, q))
              else f[q].urgent)
  {
    LeafHinted(f, c, false);
    var g := Hinted(f, c, false);
    ReflagKeeps(f, g);
    LeafAlone(g, c);
    TwiceUpdated(g, c, q);
  }

  /** The flag of `q` once the leaf `c` is calm and its ancestors are updated
    * twice. */
  lemma CalmedFlag(f: Forest, c: Con, q: Con)
    requires WellFormed(f) && FloatsOnWorkspaces(f) && c in f && f[c].urgent && Leaf(f, c)
    requires q in f && q != c && Tracked(f, q)
    ensures var h := Calmed(f, c);
            WellFormed(h) && q in h && c in h &&
            (h[q].urgent <==> if StrictlyInside(f, c, q) then h[c].urgent || (f[q].urgent && UrgentUnder(h, q))
              else f[q].urgent)
  {
    CalmedKeeps(f, c);
    CalmedTree(f, c);
    if Tracked(f, c) {
      TrackedFlag(f, c, q);
    } else {
      if Inside(f, c, q) { InsideTracked(f, c, q); }
      UntrackedFlag(f, c, q);
    }
  }

  lemma CalmedExact(f: Forest, c: Con)
    requires WellFormed(f) && FloatsOnWorkspaces(f) && Exact(f) && c in f
    ensures WellFormed(Calmed(f, c)) && Exact(Calmed(f, c))
  {
    CalmedKeeps(f, c);
    forall q | q in f ensures FlagExact(Calmed(f, c), q) {
      assert FlagExact(f, q);
      CalmedUrgentUnder(f, c, q);
      if f[c].urgent && Leaf(f, c) && Tracked(f, q) && !Leaf(f, q) {
        CalmedFlag(f, c, q);
      }
    }
  }

  lemma Raised(f: Forest, r: Con)
    requires WellFormed(f) && FloatsOnWorkspaces(f) && r in f
    ensures Climbs(f, Line(f, r))
    ensures var g := FocusUp(f, Line(f, r));
            && WellFormed(g) && FloatsOnWorkspaces(g) && Refocused(f, g) && SameFlags(f, g)
            && (forall x :: x in f ==> Line(g, x) == Line(f, x))
  {
    LineClimbs(f, r);
    FocusUpRest(f, Line(f, r));
    RefocusKeeps(f, FocusUp(f, Line(f, r)));
    RefocusFloats(f, FocusUp(f, Line(f, r)));
  }

  /** con_focus(r), if there is an `r`. */
  ghost function Refocus(f: Forest, r: Con?): (h: Forest)
    requires WellFormed(f) && FloatsOnWorkspaces(f) && (r != null ==> r in f)
    ensures WellFormed(h) && FloatsOnWorkspaces(h) && h.Keys == f.Keys
  {
    if r == null then f
    else
      Raised(f, r);
      CalmedKeeps(FocusUp(f, Line(f, r)), r);
      Calmed(FocusUp(f, Line(f, r)), r)
  }

  /** Focusing any container keeps every flag below the workspaces exact. */
  lemma FocusKeepsExact(f: Forest, r: Con?)
    requires WellFormed(f) && FloatsOnWorkspaces(f) && Exact(f) && (r != null ==> r in f)
    ensures Exact(Refocus(f, r))
  {
    if r != null {
      Raised(f, r);
      var g := FocusUp(f, Line(f, r));
      RefocusExact(f, g);
      CalmedExact(g, r);
    }
  }

  /** What is left to do once the lists are in order. */
  ghost predicate ListsFocused(f: Forest, g: Forest, c: Con) {
    && WellFormed(f) && FloatsOnWorkspaces(f) && c in f && WellFormed(g) && FloatsOnWorkspaces(g) && c in g
    && FocusOps.Topped(g, Line(g, c)) && Refocus(f, c) == Calmed(g, c)
  }

  lemma TopKept(f: Forest, g: Forest, line: seq<Con>)
    requires Refocused(f, g) && FocusOps.Topped(f, line)
    ensures FocusOps.Topped(g, line)
  {
    var top := line[|line| - 1];
    assert g[top] == f[top].(focus := g[top].focus);
  }

  lemma RaisedFocused(f: Forest, c: Con)
    requires WellFormed(f) && FloatsOnWorkspaces(f) && c in f && FocusOps.Topped(f, Line(f, c))
    ensures Climbs(f, Line(f, c)) && ListsFocused(f, FocusUp(f, Line(f, c)), c)
  {
    Raised(f, c);
    TopKept(f, FocusUp(f, Line(f, c)), Line(f, c));
  }

  /** The first half of con_focus: the lists. */
  method FocusLists(con: Con, session: FocusOps.Session, ghost cons: set<Con>)
    requires con in cons && WellFormed(View(cons)) && FloatsOnWorkspaces(View(cons))
    requires FocusOps.Topped(View(cons), Line(View(cons), con)) && |Line(View(cons), con)| > 1
    modifies session`focused, cons`focus
    ensures session.focused == con && ListsFocused(old(View(cons)), View(cons), con)
  {
    RaisedFocused(View(cons), con);
    FocusOps.ConFocus(con, session, cons, Line(View(cons), con));
  }

  /** The urgent leaf that gets the focus. */
  method Calm(con: Con, session: FocusOps.Session, ghost cons: set<Con>)
    requires con in cons && WellFormed(View(cons)) && FloatsOnWorkspaces(View(cons))
    requires FocusOps.Topped(View(cons), Line(View(cons), con)) && session.focused == con
    modifies cons`urgent
    ensures View(cons) == Calmed(old(View(cons)), con)
  {
    if con.urgent && con.nodes == [] {
      CalmedTree(View(cons), con);
      ConSetUrgency(con, false, session, cons);
      ConUpdateParentsUrgency(con, cons);
    }
  }

  lemma FocusedCalmed(f: Forest, g: Forest, c: Con)
    requires ListsFocused(f, g, c)
    ensures WellFormed(f) && FloatsOnWorkspaces(f) && c in f && WellFormed(g) && FloatsOnWorkspaces(g) && c in g
    ensures Calmed(g, c) == Refocus(f, c)
  {
  }

  method ConFocusFully(con: Con, session: FocusOps.Session, ghost cons: set<Con>)
    requires con in cons && WellFormed(View(cons)) && FloatsOnWorkspaces(View(cons))
    requires FocusOps.Topped(View(cons), Line(View(cons), con)) && Attached(View(cons), con)
    modifies session`focused, cons`focus, cons`urgent
    ensures session.focused == con && View(cons) == Refocus(old(View(cons)), con)
  {
    ghost var f := View(cons);
    FocusLists(con, session, cons);
    FocusedCalmed(f, View(cons), con);
    Calm(con, session, cons);
  }

  lemma CalmedOwn(f: Forest, c: Con)
    requires WellFormed(f) && FloatsOnWorkspaces(f) && c in f && f[c].urgent && Leaf(f, c)
    ensures Calmed(f, c)[c].urgent == f[c].urgencyTimer
  {
    CalmedTree(f, c);
    var g := SetUrgency(f, c, c, false);
    HintedKeeps(f, c, false);
    ReflagKeeps(f, Hinted(f, c, false));
    if f[c].ty != Workspace {
      LeafUnwritten(Hinted(f, c, false), c, c);
      LeafUnwritten(g, c, c);
    }
  }

  /** con_focus takes back the hint of a leaf, unless its timer runs, and of nobody
    * else; a split keeps its flag. */
  lemma FocusTakesHint(f: Forest, c: Con, l: Con)
    requires WellFormed(f) && FloatsOnWorkspaces(f) && c in f && l in f && (Leaf(f, l) || l == c)
    ensures Refocus(f, c)[l].urgent <==> f[l].urgent && (l == c && Leaf(f, c) ==> f[c].urgencyTimer)
  {
    Raised(f, c);
    var g := FocusUp(f, Line(f, c));
    assert g[l].urgent == f[l].urgent && g[l].nodes == f[l].nodes && g[c].nodes == f[c].nodes;
    assert g[c] == f[c].(focus := g[c].focus);
    if l != c {
      CalmedLeaf(g, c, l);
    } else if g[c].urgent && Leaf(g, c) {
      CalmedOwn(g, c);
    }
  }

  lemma FocusTimers(f: Forest, c: Con, l: Con)
    requires WellFormed(f) && FloatsOnWorkspaces(f) && c in f && l in f
    ensures l in Refocus(f, c) && Refocus(f, c)[l].urgencyTimer == f[l].urgencyTimer
  {
    Raised(f, c);
    var g := FocusUp(f, Line(f, c));
    CalmedKeeps(g, c);
    assert g[l] == f[l].(focus := g[l].focus);
    assert Refocus(f, c)[l] == g[l].(urgent := Refocus(f, c)[l].urgent);
  }

  /** After con_focus in full each container above `c` has the one below first. */
  lemma FocusLeads(f: Forest, c: Con)
    requires WellFormed(f) && FloatsOnWorkspaces(f) && c in f
    ensures Leads(Refocus(f, c), Line(f, c))
  {
    LineLeads(f, c);
    Raised(f, c);
    var g := FocusUp(f, Line(f, c));
    CalmedKeeps(g, c);
    LeadsSame(g, Refocus(f, c), Line(f, c));
  }

  /** The focus list of whoever is not above `c` stays. */
  lemma FocusBeside(f: Forest, c: Con, p: Con)
    requires WellFormed(f) && FloatsOnWorkspaces(f) && c in f && p in f && !StrictlyInside(f, c, p)
    ensures p in Refocus(f, c) && Refocus(f, c)[p].focus == f[p].focus
  {
    Raised(f, c);
    var g := FocusUp(f, Line(f, c));
    CalmedKeeps(g, c);
    LineClimbs(f, c);
    ClimbsDistinct(f, Line(f, c));
    FocusUpLists(f, Line(f, c));
    assert p !in Line(f, c)[1..];
    assert Refocus(f, c)[p] == g[p].(urgent := Refocus(f, c)[p].urgent);
  }
}
