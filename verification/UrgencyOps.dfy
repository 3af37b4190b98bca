/** The urgency functions of con.c on the heap. */
module UrgencyOps {
  import opened Containers
  import opened ContainerOps
  import opened Urgency
  import FocusOps

  /** con_has_urgent_child */
  method ConHasUrgentChild(con: Con, ghost cons: set<Con>) returns (r: bool)
    requires con in cons && WellFormed(View(cons))
    ensures r <==> HasUrgentChild(View(cons), con)
    decreases Below(View(cons), con)
  {
    ghost var f := View(cons);
    if con.nodes == [] {
      return con.urgent;
    }
    var i := 0;
    while i < |con.nodes|
      invariant i <= |con.nodes|
      invariant forall j :: 0 <= j < i ==> !(TilingChild(f, con, j); HasUrgentChild(f, con.nodes[j]))
    {
      TilingChild(f, con, i);
      var found := ConHasUrgentChild(con.nodes[i], cons);
      if found {
        return true;
      }
      i := i + 1;
    }
    r := false;
  }

  /** The ancestors in `done` updated. */
  ghost function Updated(f: Forest, c: Con, done: seq<Con>): Forest
    requires WellFormed(f) && c in f
  {
    map q | q in f :: if q in done then f[q].(urgent := f[c].urgent || (f[q].urgent && HasUrgentChild(f, q))) else f[q]
  }

  /** Updates change no leaf, so the search finds the same. */
  lemma {:induction false} SearchSame(f: Forest, g: Forest, c: Con)
    requires WellFormed(f) && WellFormed(g) && Reflagged(f, g) && c in f
    requires forall l :: l in f && Leaf(f, l) ==> g[l] == f[l]
    ensures HasUrgentChild(g, c) == HasUrgentChild(f, c)
    decreases Below(f, c)
  {
    forall i | 0 <= i < |f[c].nodes|
      ensures (TilingChild(g, c, i); HasUrgentChild(g, f[c].nodes[i])) ==
              (TilingChild(f, c, i); HasUrgentChild(f, f[c].nodes[i]))
    {
      TilingChild(f, c, i);
      TilingChild(g, c, i);
      SearchSame(f, g, f[c].nodes[i]);
    }
  }

  lemma UpdatedTree(f: Forest, c: Con, done: seq<Con>)
    requires WellFormed(f) && c in f
    ensures WellFormed(Updated(f, c, done)) && Reflagged(f, Updated(f, c, done))
  {
    SameTree(f, Updated(f, c, done));
  }

  lemma UpdatedLeaf(f: Forest, c: Con, done: seq<Con>, l: Con)
    requires WellFormed(f) && FloatsOnWorkspaces(f) && c in f && l in f && Leaf(f, l)
    requires forall x :: x in done ==> x in Ups(f, c)
    ensures Updated(f, c, done)[l] == f[l]
  {
    UpsSplit(f, c, l);
  }

  lemma UpdatedSearch(f: Forest, c: Con, done: seq<Con>, q: Con)
    requires WellFormed(f) && FloatsOnWorkspaces(f) && c in f && q in f
    requires forall x :: x in done ==> x in Ups(f, c)
    ensures WellFormed(Updated(f, c, done)) && HasUrgentChild(Updated(f, c, done), q) == HasUrgentChild(f, q)
  {
    UpdatedTree(f, c, done);
    forall l | l in f && Leaf(f, l) ensures Updated(f, c, done)[l] == f[l] {
      UpdatedLeaf(f, c, done, l);
    }
    SearchSame(f, Updated(f, c, done), q);
  }

  /** One level up the line there is a parent to update, or the end. */
  lemma UpsStep(f: Forest, x: Con)
    requires Acyclic(f) && x in f && FocusOps.Topped(f, Line(f, x))
    ensures var p := f[x].parent;
            if p != null && !(p in f && Boundary(f[p])) then
              p in f && Ups(f, x) == [p] + Ups(f, p) && FocusOps.Topped(f, Line(f, p))
            else Ups(f, x) == []
  {
    if Attached(f, x) {
      assert Line(f, x)[1..] == Line(f, f[x].parent);
    }
  }

  lemma {:induction false} UpsDistinct(f: Forest, c: Con, k: nat)
    requires WellFormed(f) && c in f && k < |Ups(f, c)|
    ensures Ups(f, c)[k] !in Ups(f, c)[..k]
    decreases Depths(f)[c]
  {
    if k > 0 {
      var p := f[c].parent;
      UpsDistinct(f, p, k - 1);
      UpsMeaning(f, p, Ups(f, c)[k]);
      assert Ups(f, c)[k] in Ups(f, p);
      assert Ups(f, c)[..k] == [p] + Ups(f, p)[..k - 1];
    }
  }

  /** `k` ancestors are done. */
  ghost predicate Midway(cons: set<Con>, f: Forest, con: Con, k: nat)
    reads cons
  {
    && WellFormed(f) && FloatsOnWorkspaces(f) && f.Keys == cons && con in f && k <= |Ups(f, con)|
    && View(cons) == Updated(f, con, Ups(f, con)[..k])
  }

  lemma UpdatedMore(f: Forest, c: Con, done: seq<Con>, q: Con)
    requires WellFormed(f) && c in f && q in f && q !in done
    ensures q in Updated(f, c, done) && Updated(f, c, done)[q] == f[q]
    ensures Updated(f, c, done + [q]) ==
            Updated(f, c, done)[q := f[q].(urgent := f[c].urgent || (f[q].urgent && HasUrgentChild(f, q)))]
  {
  }

  /** Writing the next one's flag. */
  lemma UpdatedNext(f: Forest, c: Con, k: nat)
    requires WellFormed(f) && FloatsOnWorkspaces(f) && c in f && k < |Ups(f, c)|
    ensures var ups := Ups(f, c);
            var g, q := Updated(f, c, ups[..k]), ups[k];
            && q in f && WellFormed(g) && q in g && g[q] == f[q] && HasUrgentChild(g, q) == HasUrgentChild(f, q)
            && Updated(f, c, ups[..k + 1]) ==
               g[q := f[q].(urgent := f[c].urgent || (f[q].urgent && HasUrgentChild(f, q)))]
  {
    var ups := Ups(f, c);
    UpsDistinct(f, c, k);
    UpdatedSearch(f, c, ups[..k], ups[k]);
    UpdatedMore(f, c, ups[..k], ups[k]);
    assert ups[..k + 1] == ups[..k] + [ups[k]];
  }

  method WriteFlag(con: Con, urgent: bool, ghost cons: set<Con>)
    requires con in cons
    modifies con`urgent
    ensures View(cons) == old(View(cons))[con := old(Snapshot(con)).(urgent := urgent)]
  {
    ghost var g: Forest := View(cons)[con := Snapshot(con).(urgent := urgent)];
    con.urgent := urgent;
    ShowView(cons, g);
  }

  method SetFlag(parent: Con, newValue: bool, ghost cons: set<Con>)
    requires parent in cons && WellFormed(View(cons))
    modifies parent`urgent
    ensures View(cons) == old(View(cons))[parent := old(Snapshot(parent)).(urgent :=
              newValue || (old(parent.urgent) && HasUrgentChild(old(View(cons)), parent)))]
  {
    if newValue {
      WriteFlag(parent, true, cons);
    } else {
      var any := ConHasUrgentChild(parent, cons);
      if !any {
        WriteFlag(parent, false, cons);
      }
    }
  }

  /** `k` ancestors of `con` are done, and the parent of `x` is the next. */
  ghost predicate Standing(cons: set<Con>, f: Forest, con: Con, k: nat, x: Con)
    reads cons
  {
    && Midway(cons, f, con, k) && x in f && FocusOps.Topped(f, Line(f, x)) && Ups(f, con)[k..] == Ups(f, x)
  }

  lemma StandingParent(cons: set<Con>, f: Forest, con: Con, k: nat, x: Con)
    requires Standing(cons, f, con, k, x)
    ensures var p := f[x].parent;
            if p != null && p in cons && p.ty != Workspace && p.ty != Dockarea then
              k < |Ups(f, con)| && p == Ups(f, con)[k] && p.parent == f[p].parent && FocusOps.Topped(f, Line(f, p))
              && Ups(f, con)[k + 1..] == Ups(f, p)
            else k == |Ups(f, con)| && (p == null || p in cons)
  {
    var p, g := f[x].parent, View(cons);
    UpsStep(f, x);
    if p in f {
      assert g[p] == Snapshot(p) && g[p].ty == f[p].ty && g[p].parent == f[p].parent;
      if !Boundary(f[p]) {
        assert Ups(f, con)[k + 1..] == Ups(f, con)[k..][1..];
      }
    }
  }

  /** One round of the loop of con_update_parents_urgency. */
  method UpdateOne(parent: Con, newValue: bool, ghost cons: set<Con>, ghost f: Forest, ghost con: Con, ghost k: nat,
                   ghost x: Con)
    requires Standing(cons, f, con, k, x) && parent == f[x].parent && newValue == f[con].urgent
    requires parent in cons && parent.ty != Workspace && parent.ty != Dockarea
    modifies parent`urgent
    ensures Standing(cons, f, con, k + 1, parent) && parent.parent == f[parent].parent && k < |Ups(f, con)|
  {
    StandingParent(cons, f, con, k, x);
    UpdatedNext(f, con, k);
    assert View(cons)[parent] == Snapshot(parent);
    SetFlag(parent, newValue, cons);
  }

  lemma StandingEnds(cons: set<Con>, f: Forest, con: Con)
    requires WellFormed(f) && con in f
    ensures Updated(f, con, Ups(f, con)[..0]) == f && Ups(f, con)[0..] == Ups(f, con)
    ensures Updated(f, con, Ups(f, con)[..|Ups(f, con)|]) == UpdateParents(f, con)
  {
    assert Ups(f, con)[..|Ups(f, con)|] == Ups(f, con);
  }

  method UpdateAll(con: Con, start: Con?, newValue: bool, ghost cons: set<Con>)
    requires con in cons && WellFormed(View(cons)) && FloatsOnWorkspaces(View(cons))
    requires FocusOps.Topped(View(cons), Line(View(cons), con)) && start == con.parent && newValue == con.urgent
    modifies cons`urgent
    ensures View(cons) == UpdateParents(old(View(cons)), con)
  {
    ghost var f, k := View(cons), 0;
    ghost var x: Con := con;
    StandingEnds(cons, f, con);
    var parent := start;
    StandingParent(cons, f, con, k, x);
    while parent != null && parent.ty != Workspace && parent.ty != Dockarea
      invariant Standing(cons, f, con, k, x) && parent == f[x].parent && (parent == null || parent in cons)
      decreases |Ups(f, con)| - k
    {
      UpdateOne(parent, newValue, cons, f, con, k, x);
      x, k := parent, k + 1;
      parent := parent.parent;
      StandingParent(cons, f, con, k, x);
    }
    StandingParent(cons, f, con, k, x);
  }

  method ConUpdateParentsUrgency(con: Con, ghost cons: set<Con>)
    requires con in cons && WellFormed(View(cons)) && FloatsOnWorkspaces(View(cons))
    requires FocusOps.Topped(View(cons), Line(View(cons), con))
    modifies cons`urgent
    ensures View(cons) == if con.ty == Workspace then old(View(cons)) else UpdateParents(old(View(cons)), con)
  {
    var parent := con.parent;
    if con.ty == Workspace {
      return;
    }
    UpdateAll(con, parent, con.urgent, cons);
  }

  method WriteHint(con: Con, urgent: bool, ghost cons: set<Con>)
    requires con in cons
    modifies con`urgent
    ensures View(cons) == Hinted(old(View(cons)), con, urgent)
  {
    if !con.urgencyTimer {
      WriteFlag(con, urgent, cons);
    }
  }

  lemma HintedReady(f: Forest, c: Con, urgent: bool)
    requires WellFormed(f) && FloatsOnWorkspaces(f) && c in f && FocusOps.Topped(f, Line(f, c))
    ensures var g := Hinted(f, c, urgent);
            WellFormed(g) && FloatsOnWorkspaces(g) && FocusOps.Topped(g, Line(g, c)) && g[c].ty == f[c].ty
  {
    HintedKeeps(f, c, urgent);
    ReflagKeeps(f, Hinted(f, c, urgent));
  }

  method ApplyHint(con: Con, urgent: bool, ghost focused: Con?, ghost cons: set<Con>)
    requires con in cons && WellFormed(View(cons)) && FloatsOnWorkspaces(View(cons))
    requires FocusOps.Topped(View(cons), Line(View(cons), con)) && !Ignored(focused, con, urgent)
    modifies cons`urgent
    ensures View(cons) == SetUrgency(old(View(cons)), focused, con, urgent)
  {
    HintedReady(View(cons), con, urgent);
    WriteHint(con, urgent, cons);
    ConUpdateParentsUrgency(con, cons);
  }

  /** con_set_urgency, up to the workspace's own flag. */
  method ConSetUrgency(con: Con, urgent: bool, session: FocusOps.Session, ghost cons: set<Con>)
    requires con in cons && WellFormed(View(cons)) && FloatsOnWorkspaces(View(cons))
    requires FocusOps.Topped(View(cons), Line(View(cons), con))
    modifies cons`urgent
    ensures View(cons) == SetUrgency(old(View(cons)), session.focused, con, urgent)
  {
    if urgent && session.focused == con {
      return;
    }
    ApplyHint(con, urgent, session.focused, cons);
  }
}
