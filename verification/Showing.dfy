/** workspace_show: which workspace of an output is visible, and the focus going
  * there. */
module Showing {
  import opened Order
  import opened Containers
  import opened Focus
  import opened Urgency
  import opened FocusUrgency
  import opened Workspaces
  import opened Activation
  import ContainerOps
  import FocusOps

  ghost function WithMode(f: Forest, c: Con, mode: FullscreenMode): Forest
    requires c in f
  {
    f[c := f[c].(fullscreen := mode)]
  }

  /** On each output the visible workspace is the one marked CF_OUTPUT. */
  ghost function Visible(f: Forest, ws: Con): (g: Forest)
    requires Proper(f) && ws in f && f[ws].ty == Workspace
    ensures Remoded(f, g)
  {
    assert Attached(f, ws);
    map x | x in f ::
      if x == ws then f[x].(fullscreen := OnOutput)
      else if x in f[f[ws].parent].nodes then f[x].(fullscreen := NotFullscreen)
      else f[x]
  }

  /** Only workspaces change their modes, and none becomes global. */
  ghost predicate WindowModes(f: Forest, g: Forest) {
    g.Keys == f.Keys && forall x {:trigger g[x].fullscreen} :: x in f ==>
      g[x].fullscreen == f[x].fullscreen || (f[x].ty == Workspace && g[x].fullscreen != Global)
  }

  lemma VisibleModes(f: Forest, ws: Con)
    requires Proper(f) && ws in f && f[ws].ty == Workspace
    ensures WindowModes(f, Visible(f, ws)) && Proper(Visible(f, ws)) && SameLists(f, Visible(f, ws))
  {
    assert Attached(f, ws);
    RemodedLists(f, Visible(f, ws));
    ProperKept(f, Visible(f, ws));
  }

  /** The flags of `next` and of its workspace, to be kept for a while. */
  ghost function Deferred(f: Forest, next: Con, ws: Con): Forest
    requires next in f && ws in f
  {
    map x | x in f ::
      if x == next then f[x].(urgent := true, urgencyTimer := true)
      else if x == ws then f[x].(urgent := true)
      else f[x]
  }

  ghost function Unhinted(f: Forest, c: Con): Forest
    requires c in f
  {
    f[c := f[c].(urgent := false)]
  }

  lemma UnhintedProper(f: Forest, c: Con)
    requires Proper(f) && c in f
    ensures Reflagged(f, Unhinted(f, c)) && Proper(Unhinted(f, c)) && SameLists(f, Unhinted(f, c)) &&
            SameModes(f, Unhinted(f, c))
  {
    var g := Unhinted(f, c);
    ReflaggedLists(f, g);
    ProperKept(f, g);
  }

  /** Focusing what will have the focus on `ws`.  An urgent container keeps its
    * hint while a timer runs, if one is configured. */
  ghost function FocusShown(f: Forest, next: Con, ws: Con, delayed: bool): Forest
    requires Proper(f) && next in f && ws in f
  {
    if f[next].urgent && delayed then
      UnhintedProper(f, next);
      Deferred(Refocus(Unhinted(f, next), next), next, ws)
    else Refocus(f, next)
  }

  /** Flags and timers are all that differs. */
  ghost predicate HintsOnly(f: Forest, g: Forest) {
    g.Keys == f.Keys &&
      forall x {:trigger g[x]} :: x in f ==> g[x] == f[x].(urgent := g[x].urgent, urgencyTimer := g[x].urgencyTimer)
  }

  lemma HintsLists(f: Forest, g: Forest)
    requires WellFormed(f) && HintsOnly(f, g)
    ensures SameLists(f, g) && SameModes(f, g)
  {
    SameTree(f, g);
    forall x | x in f ensures Attached(g, x) == Attached(f, x) {
      assert f[x].parent in f ==> g[f[x].parent].focus == f[f[x].parent].focus;
    }
  }

  lemma DeferredLists(f: Forest, next: Con, ws: Con)
    requires WellFormed(f) && next in f && ws in f
    ensures SameLists(f, Deferred(f, next, ws)) && SameModes(f, Deferred(f, next, ws))
  {
    HintsLists(f, Deferred(f, next, ws));
  }

  lemma FocusShownLists(f: Forest, next: Con, ws: Con, delayed: bool)
    requires Proper(f) && next in f && ws in f
    ensures SameLists(f, FocusShown(f, next, ws, delayed)) && SameModes(f, FocusShown(f, next, ws, delayed))
  {
    if f[next].urgent && delayed {
      UnhintedProper(f, next);
      var g := Unhinted(f, next);
      var h := Refocus(g, next);
      RefocusProper(g, next);
      DeferredLists(h, next, ws);
      ListsTrans(f, g, h);
      ModesTrans(f, g, h);
      ListsTrans(f, h, Deferred(h, next, ws));
      ModesTrans(f, h, Deferred(h, next, ws));
    } else {
      RefocusProper(f, next);
    }
  }

  ghost function Show(s: State, ws: Con, delayed: bool): State
    requires Sound(s) && ws in s.tree && s.tree[ws].ty == Workspace
  {
    VisibleModes(s.tree, ws);
    var f := Visible(s.tree, ws);
    if WorkspaceOf(f, s.focused) == ws then State(f, s.focused)
    else
      var next := Descend(f, s.focused, ws);
      State(FocusShown(f, next, ws, delayed), next)
  }

  lemma NextAttached(f: Forest, focused: Con?, ws: Con)
    requires Proper(f) && ws in f && f[ws].ty == Workspace
    ensures Attached(f, Descend(f, focused, ws))
  {
    assert Attached(f, ws);
    InsideUnfolds(f, Descend(f, focused, ws), ws);
  }

  /** Nobody moves; of the modes only those of workspaces change. */
  lemma ShowKeeps(s: State, ws: Con, delayed: bool)
    requires Sound(s) && ws in s.tree && s.tree[ws].ty == Workspace
    ensures var t := Show(s, ws, delayed); Sound(t) && SameLists(s.tree, t.tree) && WindowModes(s.tree, t.tree)
  {
    var f := Visible(s.tree, ws);
    VisibleModes(s.tree, ws);
    NextAttached(f, s.focused, ws);
    SoundKept(s, State(f, s.focused));
    if WorkspaceOf(f, s.focused) != ws {
      var next := Descend(f, s.focused, ws);
      var g := FocusShown(f, next, ws, delayed);
      FocusShownLists(f, next, ws, delayed);
      ListsTrans(s.tree, f, g);
      SoundKept(State(f, s.focused), State(g, next));
    }
  }

  // ---------------------------------------------------------------- flags

  lemma SameBoundary(f: Forest, g: Forest, q: Con)
    requires Acyclic(f) && Acyclic(g) && g.Keys == f.Keys && q in f
    requires forall x :: x in f ==> Line(g, x) == Line(f, x) && g[x].ty == f[x].ty
    ensures Tracked(g, q) == Tracked(f, q)
  {
    assert forall x :: x in g && Inside(g, x, q) ==> Inside(f, x, q) && Boundary(f[x]) == Boundary(g[x]);
    assert forall x :: x in f && Inside(f, x, q) ==> Inside(g, x, q) && Boundary(f[x]) == Boundary(g[x]);
  }

  lemma UrgentElsewhere(f: Forest, g: Forest, ws: Con, q: Con)
    requires Acyclic(f) && Acyclic(g) && g.Keys == f.Keys && q in f && ws in f && !Inside(f, ws, q) && UrgentUnder(f, q)
    requires forall x :: x in f && x != ws ==>
             g[x].urgent == f[x].urgent && g[x].nodes == f[x].nodes && Line(g, x) == Line(f, x)
    ensures UrgentUnder(g, q)
  {
    var l :| l in f && UrgentLeaf(f, l) && Inside(f, l, q);
    assert UrgentLeaf(g, l) && Inside(g, l, q);
  }

  /** A workspace's own flag does not matter below it. */
  lemma WorkspaceFlag(f: Forest, g: Forest, ws: Con, q: Con)
    requires WellFormed(f) && SameLists(f, g) && ws in f && f[ws].ty == Workspace && q in f && FlagExact(f, q)
    requires forall x :: x in f && x != ws ==> g[x].urgent == f[x].urgent
    requires forall x :: x in f ==> Line(g, x) == Line(f, x) && g[x].ty == f[x].ty && g[x].nodes == f[x].nodes
    ensures FlagExact(g, q)
  {
    SameBoundary(f, g, q);
    if Tracked(g, q) && !Leaf(g, q) {
      assert !Inside(g, ws, q) && Inside(g, q, q);
      if UrgentUnder(f, q) { UrgentElsewhere(f, g, ws, q); }
      if UrgentUnder(g, q) { UrgentElsewhere(g, f, ws, q); }
    }
  }

  lemma WorkspaceFlags(f: Forest, g: Forest, ws: Con)
    requires WellFormed(f) && SameLists(f, g) && ws in f && f[ws].ty == Workspace && Exact(f)
    requires forall x :: x in f && x != ws ==> g[x].urgent == f[x].urgent
    ensures Exact(g)
  {
    forall x | x in f ensures Line(g, x) == Line(f, x) && g[x].ty == f[x].ty && g[x].nodes == f[x].nodes {
      AncestryLine(f, g, x);
      assert Attached(g, x) == Attached(f, x);
    }
    forall q | q in g ensures FlagExact(g, q) {
      assert FlagExact(f, q);
      WorkspaceFlag(f, g, ws, q);
    }
  }

  lemma CalmFocus(f: Forest, c: Con)
    requires WellFormed(f) && FloatsOnWorkspaces(f) && c in f && !f[c].urgent
    ensures SameFlags(f, Refocus(f, c))
  {
    Raised(f, c);
  }

  /** The hint is put back where it was. */
  lemma DeferredFlags(f: Forest, next: Con, ws: Con, x: Con)
    requires Proper(f) && next in f && ws in f && f[next].urgent && x in f && x != ws
    ensures x in FocusShown(f, next, ws, true) && FocusShown(f, next, ws, true)[x].urgent == f[x].urgent
  {
    UnhintedProper(f, next);
    var g := Unhinted(f, next);
    CalmFocus(g, next);
    assert Refocus(g, next)[x].urgent == g[x].urgent;
  }

  lemma FocusShownExact(f: Forest, next: Con, ws: Con, delayed: bool)
    requires Proper(f) && next in f && ws in f && f[ws].ty == Workspace && Exact(f)
    ensures Acyclic(FocusShown(f, next, ws, delayed)) && Exact(FocusShown(f, next, ws, delayed))
  {
    FocusShownLists(f, next, ws, delayed);
    if f[next].urgent && delayed {
      forall x | x in f && x != ws ensures FocusShown(f, next, ws, true)[x].urgent == f[x].urgent {
        DeferredFlags(f, next, ws, x);
      }
      WorkspaceFlags(f, FocusShown(f, next, ws, delayed), ws);
    } else {
      FocusKeepsExact(f, next);
    }
  }

  lemma ShowKeepsExact(s: State, ws: Con, delayed: bool)
    requires Sound(s) && ws in s.tree && s.tree[ws].ty == Workspace && Exact(s.tree)
    ensures Acyclic(Show(s, ws, delayed).tree) && Exact(Show(s, ws, delayed).tree)
  {
    var f := Visible(s.tree, ws);
    VisibleModes(s.tree, ws);
    RemodedLists(s.tree, f);
    ShapeExact(s.tree, f);
    if WorkspaceOf(f, s.focused) != ws {
      FocusShownExact(f, Descend(f, s.focused, ws), ws, delayed);
    }
  }

  lemma VisibleDescend(s: State, ws: Con)
    requires Sound(s) && ws in s.tree && s.tree[ws].ty == Workspace
    ensures Proper(Visible(s.tree, ws)) && Descend(Visible(s.tree, ws), s.focused, ws) == Descend(s.tree, s.focused, ws)
    ensures WorkspaceOf(Visible(s.tree, ws), s.focused) == WorkspaceOf(s.tree, s.focused)
  {
    var f := Visible(s.tree, ws);
    VisibleModes(s.tree, ws);
    AncestryWorkspace(s.tree, f, s.focused);
    forall x | x in s.tree ensures f[x].focus == s.tree[x].focus {
      assert f[x] == s.tree[x].(fullscreen := f[x].fullscreen);
    }
    DescendSame(s.tree, f, s.focused, ws);
  }

  /** Of the workspaces beside it only this one is visible, and no other container
    * changes its mode; the focus stays if it is on the workspace, and else goes
    * where descending from the workspace ends. */
  lemma ShowMeans(s: State, ws: Con, delayed: bool)
    requires Sound(s) && ws in s.tree && s.tree[ws].ty == Workspace
    ensures var t := Show(s, ws, delayed);
            && Sound(t) && Attached(s.tree, ws) && t.tree.Keys == s.tree.Keys
            && t.tree[ws].fullscreen == OnOutput
            && (forall x :: x in s.tree && x != ws ==>
                  t.tree[x].fullscreen ==
                  if x in s.tree[s.tree[ws].parent].nodes then NotFullscreen else s.tree[x].fullscreen)
            && Inside(t.tree, t.focused, ws)
            && t.focused == if WorkspaceOf(s.tree, s.focused) == ws then s.focused else Descend(s.tree, s.focused, ws)
  {
    var f := Visible(s.tree, ws);
    assert Attached(s.tree, ws);
    ShowKeeps(s, ws, delayed);
    VisibleModes(s.tree, ws);
    VisibleDescend(s, ws);
    if WorkspaceOf(f, s.focused) != ws {
      var next := Descend(f, s.focused, ws);
      FocusShownLists(f, next, ws, delayed);
      AncestryLine(f, FocusShown(f, next, ws, delayed), next);
    }
  }

  lemma UnhintedLeads(f: Forest, next: Con)
    requires Proper(f) && next in f
    ensures Proper(Unhinted(f, next)) && Leads(Refocus(Unhinted(f, next), next), Line(f, next))
  {
    UnhintedProper(f, next);
    AncestryLine(f, Unhinted(f, next), next);
    FocusLeads(Unhinted(f, next), next);
  }

  lemma DeferredLeads(h: Forest, next: Con, ws: Con, line: seq<Con>)
    requires next in h && ws in h && Leads(h, line)
    ensures Leads(Deferred(h, next, ws), line)
  {
    LeadsSame(h, Deferred(h, next, ws), line);
  }

  lemma FocusShownLeads(f: Forest, next: Con, ws: Con, delayed: bool)
    requires Proper(f) && next in f && ws in f
    ensures Leads(FocusShown(f, next, ws, delayed), Line(f, next))
  {
    if f[next].urgent && delayed {
      UnhintedLeads(f, next);
      DeferredLeads(Refocus(Unhinted(f, next), next), next, ws, Line(f, next));
    } else {
      FocusLeads(f, next);
    }
  }

  /** Arriving from another workspace, descending from any container above the
    * focus ends at it. */
  lemma ShowLeads(s: State, ws: Con, delayed: bool, a: Con)
    requires Sound(s) && ws in s.tree && s.tree[ws].ty == Workspace && WorkspaceOf(s.tree, s.focused) != ws
    requires Inside(s.tree, Descend(s.tree, s.focused, ws), a)
    ensures var t := Show(s, ws, delayed);
            WellFormed(t.tree) && a in t.tree && Descend(t.tree, t.focused, a) == t.focused
  {
    var f := Visible(s.tree, ws);
    VisibleModes(s.tree, ws);
    VisibleDescend(s, ws);
    var next := Descend(f, s.focused, ws);
    AncestryLine(s.tree, f, next);
    FocusShownLeads(f, next, ws, delayed);
    FocusShownLists(f, next, ws, delayed);
    DescendAlong(FocusShown(f, next, ws, delayed), Line(f, next), IndexOf(Line(f, next), a));
  }

  lemma DeferredHint(f: Forest, next: Con, ws: Con, l: Con)
    requires Proper(f) && next in f && ws in f && l in f && f[next].urgent
    ensures var g := FocusShown(f, next, ws, true);
            && l in g && (if l == next || l == ws then g[l].urgent else g[l].urgent == f[l].urgent)
            && g[l].urgencyTimer == (l == next || f[l].urgencyTimer)
  {
    UnhintedProper(f, next);
    FocusTimers(Unhinted(f, next), next, l);
    if l != ws && l != next { DeferredFlags(f, next, ws, l); }
  }

  lemma FocusShownHint(f: Forest, next: Con, ws: Con, delayed: bool, l: Con)
    requires Proper(f) && next in f && ws in f && l in f && Leaf(f, l)
    ensures var g := FocusShown(f, next, ws, delayed);
            && l in g && (l == next ==> (g[l].urgent <==> f[l].urgent && (delayed || f[l].urgencyTimer)))
            && (l != next && l != ws ==> g[l].urgent == f[l].urgent)
            && (f[next].urgent && delayed && l == ws ==> g[l].urgent)
            && g[l].urgencyTimer == (f[l].urgencyTimer || (f[next].urgent && delayed && l == next))
  {
    if f[next].urgent && delayed {
      DeferredHint(f, next, ws, l);
    } else {
      FocusTakesHint(f, next, l);
      FocusTimers(f, next, l);
    }
  }

  /** Arriving from another workspace takes the hint of the leaf focused, unless it
    * is deferred or its timer runs, and no other window's; a hint deferred gets a
    * timer and flags the workspace. */
  lemma ShowHints(s: State, ws: Con, delayed: bool, l: Con)
    requires Sound(s) && ws in s.tree && s.tree[ws].ty == Workspace && WorkspaceOf(s.tree, s.focused) != ws
    requires l in s.tree && Leaf(s.tree, l)
    ensures var next := Descend(s.tree, s.focused, ws);
            var g := Show(s, ws, delayed).tree;
            && l in g && (l == next ==> (g[l].urgent <==> s.tree[l].urgent && (delayed || s.tree[l].urgencyTimer)))
            && (l != next && l != ws ==> g[l].urgent == s.tree[l].urgent)
            && g[l].urgencyTimer == (s.tree[l].urgencyTimer || (s.tree[l].urgent && delayed && l == next))
            && ws in g && (s.tree[next].urgent && delayed ==> g[ws].urgent)
  {
    var f := Visible(s.tree, ws);
    VisibleDescend(s, ws);
    var next := Descend(f, s.focused, ws);
    assert f[l] == s.tree[l].(fullscreen := f[l].fullscreen);
    assert Leaf(f, l) && f[next].urgent == s.tree[next].urgent;
    FocusShownHint(f, next, ws, delayed, l);
    if f[next].urgent && delayed { DeferredHint(f, next, ws, ws); }
  }

  // ---------------------------------------------------------------- on the heap

  ghost function Hidden(f: Forest, nodes: seq<Con>): Forest {
    map x | x in f :: if x in nodes then f[x].(fullscreen := NotFullscreen) else f[x]
  }

  method HideAll(nodes: seq<Con>, ghost cons: set<Con>)
    requires forall c :: c in nodes ==> c in cons
    modifies cons`fullscreen
    ensures View(cons) == Hidden(old(View(cons)), nodes)
  {
    ghost var f := View(cons);
    var i := 0;
    while i < |nodes|
      invariant i <= |nodes|
      invariant forall c :: c in cons ==>
                Snapshot(c) == if c in nodes[..i] then f[c].(fullscreen := NotFullscreen) else f[c]
    {
      nodes[i].fullscreen := NotFullscreen;
      i := i + 1;
    }
    assert nodes[..i] == nodes;
    ContainerOps.ShowView(cons, Hidden(f, nodes));
  }

  lemma VisibleFrom(f: Forest, ws: Con)
    requires Proper(f) && ws in f && f[ws].ty == Workspace
    ensures Attached(f, ws) && (forall c :: c in f[f[ws].parent].nodes ==> c in f)
    ensures Visible(f, ws) == WithMode(Hidden(f, f[f[ws].parent].nodes), ws, OnOutput)
  {
    assert Attached(f, ws);
    NodesKnown(f, f[ws].parent);
  }

  method SetFullscreenMode(con: Con, mode: FullscreenMode, ghost cons: set<Con>)
    requires con in cons
    modifies con`fullscreen
    ensures View(cons) == WithMode(old(View(cons)), con, mode)
  {
    ghost var g: Forest := WithMode(View(cons), con, mode);
    con.fullscreen := mode;
    ContainerOps.ShowView(cons, g);
  }

  method MarkVisible(ws: Con, ghost cons: set<Con>)
    requires ws in cons && Proper(View(cons)) && ws.ty == Workspace
    modifies cons`fullscreen
    ensures View(cons) == Visible(old(View(cons)), ws)
  {
    ghost var f := View(cons);
    VisibleFrom(f, ws);
    assert f[ws] == Snapshot(ws) && f[ws.parent] == Snapshot(ws.parent);
    HideAll(ws.parent.nodes, cons);
    SetFullscreenMode(ws, OnOutput, cons);
  }

  method TakeHint(c: Con, ghost cons: set<Con>)
    requires c in cons
    modifies c`urgent
    ensures View(cons) == Unhinted(old(View(cons)), c)
  {
    ghost var g := Unhinted(View(cons), c);
    c.urgent := false;
    ContainerOps.ShowView(cons, g);
  }

  method PutHintBack(next: Con, ws: Con, ghost cons: set<Con>)
    requires next in cons && ws in cons
    modifies next`urgent, ws`urgent, next`urgencyTimer
    ensures View(cons) == Deferred(old(View(cons)), next, ws)
  {
    ghost var g := Deferred(View(cons), next, ws);
    next.urgent := true;
    ws.urgent := true;
    next.urgencyTimer := true;
    ContainerOps.ShowView(cons, g);
  }

  /** The container gets the focus, and its hint back for a while. */
  method FocusDeferred(next: Con, ws: Con, session: FocusOps.Session, ghost cons: set<Con>)
    requires next in cons && ws in cons && Proper(View(cons)) && Attached(View(cons), next) && View(cons)[next].urgent
    modifies session`focused, cons`focus, cons`urgent, cons`urgencyTimer
    ensures session.focused == next && View(cons) == FocusShown(old(View(cons)), next, ws, true)
  {
    UnhintedProper(View(cons), next);
    TakeHint(next, cons);
    assert Attached(View(cons), next);
    RootedTopped(View(cons), next);
    ConFocusFully(next, session, cons);
    PutHintBack(next, ws, cons);
  }

  method FocusNext(next: Con, ws: Con, delayed: bool, session: FocusOps.Session, ghost cons: set<Con>)
    requires next in cons && ws in cons && Proper(View(cons)) && Attached(View(cons), next)
    modifies session`focused, cons`focus, cons`urgent, cons`urgencyTimer
    ensures session.focused == next && View(cons) == FocusShown(old(View(cons)), next, ws, delayed)
  {
    assert View(cons)[next] == Snapshot(next);
    if next.urgent && delayed {
      FocusDeferred(next, ws, session, cons);
    } else {
      RootedTopped(View(cons), next);
      ConFocusFully(next, session, cons);
    }
  }

  method FocusThere(ws: Con, delayed: bool, session: FocusOps.Session, ghost cons: set<Con>)
    requires ws in cons && Proper(View(cons)) && View(cons)[ws].ty == Workspace
    modifies session`focused, cons`focus, cons`urgent, cons`urgencyTimer
    ensures session.focused in cons && session.focused == Descend(old(View(cons)), old(session.focused), ws)
    ensures View(cons) == FocusShown(old(View(cons)), session.focused, ws, delayed)
  {
    var next := FocusOps.ConDescendFocused(ws, session.focused, cons);
    NextAttached(View(cons), session.focused, ws);
    FocusNext(next, ws, delayed, session, cons);
  }

  method IsCurrent(ws: Con, focused: Con, ghost cons: set<Con>) returns (r: bool)
    requires focused in cons && Proper(View(cons))
    ensures r <==> WorkspaceOf(View(cons), focused) == ws
  {
    RootedTopped(View(cons), focused);
    var current := ConGetWorkspace(focused, cons);
    r := ws == current;
  }

  /** The focus, once `ws` is visible. */
  method ShowFrom(ws: Con, delayed: bool, session: FocusOps.Session, ghost cons: set<Con>, ghost s: State)
    requires Sound(s) && ws in cons && s.tree.Keys == cons && s.tree[ws].ty == Workspace && session.focused == s.focused
    requires View(cons) == Visible(s.tree, ws)
    modifies session`focused, cons`focus, cons`urgent, cons`urgencyTimer
    ensures session.focused in cons && State(View(cons), session.focused) == Show(s, ws, delayed)
  {
    VisibleModes(s.tree, ws);
    var here := IsCurrent(ws, session.focused, cons);
    if !here {
      FocusThere(ws, delayed, session, cons);
    }
  }

  /** workspace_show, but for closing the workspace left if it is empty and for
    * sticky windows. */
  method WorkspaceShow(ws: Con, delayed: bool, session: FocusOps.Session, ghost cons: set<Con>)
    requires ws in cons && ws.ty == Workspace && session.focused in cons && Sound(State(View(cons), session.focused))
    modifies session`focused, cons`focus, cons`urgent, cons`urgencyTimer, cons`fullscreen
    ensures session.focused in cons && State(View(cons), session.focused) ==
            Show(old(State(View(cons), session.focused)), ws, delayed)
  {
    ghost var s := State(View(cons), session.focused);
    MarkVisible(ws, cons);
    ShowFrom(ws, delayed, session, cons, s);
  }
}
