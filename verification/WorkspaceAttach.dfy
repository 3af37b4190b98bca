/** _con_attach as a whole: a window attached to a workspace that has a layout
  * for its windows goes into a new split, made by workspace_attach_to. */
module WorkspaceAttach {
  import opened Order
  import opened Containers
  import opened Attachment
  import opened ContainerOps
  import opened Encapsulation
  import opened Percent
  import opened PercentOps

  /** A window for a workspace with such a layout. */
  ghost predicate NeedsSplit(f: Forest, c: Con, ws: Con)
    requires c in f && ws in f
  {
    f[c].ty != FloatingCon && f[c].ty != Workspace && f[c].window.Some? && f[ws].ty == Workspace &&
      f[ws].workspaceLayout != Default
  }

  ghost predicate CanAttachInside(f: Forest, c: Con, ws: Con, n: Con) {
    && WellFormed(f) && c in f && ws in f && n !in f
    && Loose(f, c) && !Inside(f, ws, c) && NeedsSplit(f, c, ws)
  }

  // ---------------------------------------------------------------- workspace_attach_to

  ghost function WithSplit(f: Forest, ws: Con, n: Con): Forest
    requires ws in f
  {
    f[n := Fresh(None).(parent := ws, layout := f[ws].workspaceLayout)]
  }

  /** Nothing is inside a container without children but that container. */
  lemma {:induction false} NothingInside(f: Forest, x: Con, n: Con)
    requires Acyclic(f) && x in f && n in f && f[n].focus == [] && x != n
    ensures !Inside(f, x, n)
    decreases Depths(f)[x]
  {
    if Attached(f, x) {
      assert x in f[f[x].parent].focus;
      NothingInside(f, f[x].parent, n);
    }
  }

  lemma SplitReady(f: Forest, ws: Con, n: Con)
    requires WellFormed(f) && ws in f && n !in f && f[ws].ty == Workspace
    ensures CanAttach(WithSplit(f, ws, n), n, ws, None)
  {
    var g := WithSplit(f, ws, n);
    NewcomerKeeps(f, n, g[n]);
    forall p, x | p in f && x in f[p].focus ensures x != n {
      assert EdgeAgrees(f, p, x);
    }
    NothingInside(g, ws, n);
  }

  lemma SplitListed(f: Forest, ws: Con, n: Con)
    requires WellFormed(f) && ws in f && CanAttach(WithSplit(f, ws, n), n, ws, None)
    ensures WellFormed(Attach(WithSplit(f, ws, n), n, ws, None, false))
  {
    var g := WithSplit(f, ws, n);
    AttachKeeps(g, n, ws, Place(g, n, ws, None, false));
  }

  /** The new split, listed, and the shares of the workspace's children fixed. */
  ghost function SplitAdded(f: Forest, ws: Con, n: Con): Forest
    requires WellFormed(f) && ws in f && n !in f && f[ws].ty == Workspace
  {
    SplitReady(f, ws, n);
    SplitListed(f, ws, n);
    Reshared(Attach(WithSplit(f, ws, n), n, ws, None, false), ws)
  }

  /** The split is last in the workspace's focus order. */
  lemma SplitPlaced(f: Forest, ws: Con, n: Con)
    requires WellFormed(f) && ws in f && n !in f && f[ws].ty == Workspace
    ensures CanAttach(WithSplit(f, ws, n), n, ws, None)
    ensures var w := WithSplit(f, ws, n);
            var k := Place(w, n, ws, None, false);
            k <= |f[ws].nodes| && Attach(w, n, ws, None, false)
              == w[ws := f[ws].(nodes := Inserted(f[ws].nodes, k, n), focus := f[ws].focus + [n])]
  {
    SplitReady(f, ws, n);
  }

  ghost predicate SplitShape(f: Forest, ws: Con, n: Con, k: nat, g: Forest)
    requires ws in f && k <= |f[ws].nodes|
  {
    && g.Keys == f.Keys + {n}
    && g[ws] == f[ws].(nodes := Inserted(f[ws].nodes, k, n), focus := f[ws].focus + [n])
    && g[n] == Fresh(None).(parent := ws, layout := f[ws].workspaceLayout, percent := g[n].percent)
    && (forall x {:trigger g[x]} :: x in f && x != ws ==>
       g[x] == if x in f[ws].nodes then f[x].(percent := g[x].percent) else f[x])
  }

  lemma ResharedKeeps(f: Forest, p: Con)
    requires WellFormed(f) && p in f
    ensures WellFormed(Reshared(f, p)) && Reshared(f, p)[p] == f[p]
  {
    NodesKnown(f, p);
    NotOwnChild(f, p);
    assert OwnLists(f[p]);
    SameTree(f, Reshared(f, p));
  }

  /** Only shares of `p`'s children are changed. */
  ghost predicate OnlyShares(f: Forest, p: Con, g: Forest)
    requires p in f
  {
    g.Keys == f.Keys &&
      forall x {:trigger g[x]} :: x in f ==> g[x] == if x in f[p].nodes then f[x].(percent := g[x].percent) else f[x]
  }

  lemma ResharedOnly(f: Forest, p: Con)
    requires WellFormed(f) && p in f
    ensures OnlyShares(f, p, Reshared(f, p))
  {
  }

  lemma SharesShape(f: Forest, ws: Con, n: Con, k: nat, a: Forest, g: Forest)
    requires ws in f && n !in f && k <= |f[ws].nodes| && ws !in f[ws].nodes && n !in f[ws].nodes &&
             Distinct(f[ws].nodes)
    requires a == WithSplit(f, ws, n)[ws := f[ws].(nodes := Inserted(f[ws].nodes, k, n), focus := f[ws].focus + [n])]
    requires OnlyShares(a, ws, g)
    ensures SplitShape(f, ws, n, k, g)
  {
    InsertedMembers(f[ws].nodes, k, n);
  }

  /** The children of the workspace may have other shares, and nothing else is
    * changed. */
  lemma SplitEffect(f: Forest, ws: Con, n: Con)
    requires WellFormed(f) && ws in f && n !in f && f[ws].ty == Workspace
    ensures CanAttach(WithSplit(f, ws, n), n, ws, None)
    ensures var g, k := SplitAdded(f, ws, n), Place(WithSplit(f, ws, n), n, ws, None, false);
            WellFormed(g) && k <= |f[ws].nodes| && SplitShape(f, ws, n, k, g)
  {
    SplitPlaced(f, ws, n);
    SplitListed(f, ws, n);
    var w := WithSplit(f, ws, n);
    ResharedKeeps(Attach(w, n, ws, None, false), ws);
    ResharedOnly(Attach(w, n, ws, None, false), ws);
    NodesKnown(f, ws);
    NotOwnChild(f, ws);
    assert OwnLists(f[ws]);
    SharesShape(f, ws, n, Place(w, n, ws, None, false), Attach(w, n, ws, None, false), SplitAdded(f, ws, n));
  }

  /** The workspace's children then fill it, the new split among them. */
  lemma SplitShares(f: Forest, ws: Con, n: Con)
    requires WellFormed(f) && ws in f && n !in f && f[ws].ty == Workspace && f[ws].layout != Scrolling
    ensures var g := SplitAdded(f, ws, n);
            && WellFormed(g) && ws in g && n in g[ws].nodes && (forall c :: c in g[ws].nodes ==> c in g)
            && AllPositive(Shares(g, g[ws].nodes)) && Sum(Shares(g, g[ws].nodes)) == 1.0
  {
    SplitEffect(f, ws, n);
    SplitPlaced(f, ws, n);
    SplitListed(f, ws, n);
    var w := WithSplit(f, ws, n);
    var a, k := Attach(w, n, ws, None, false), Place(w, n, ws, None, false);
    ResharedShares(a, ws);
    assert a[ws].nodes[k] == n;
  }

  // ---------------------------------------------------------------- the window

  ghost function AttachInside(f: Forest, c: Con, ws: Con, n: Con): Forest
    requires CanAttachInside(f, c, ws, n)
  {
    Listed(SplitAdded(f, ws, n), c, n, 0)
  }

  lemma ShapeAttached(f: Forest, ws: Con, n: Con, k: nat, g: Forest, y: Con)
    requires WellFormed(f) && ws in f && n !in f && k <= |f[ws].nodes| && SplitShape(f, ws, n, k, g) && y in f
    ensures g[y].parent == f[y].parent && Attached(g, y) == Attached(f, y)
  {
  }

  lemma ShapeLines(f: Forest, ws: Con, n: Con, k: nat, g: Forest, x: Con)
    requires WellFormed(f) && Acyclic(g) && ws in f && n !in f && k <= |f[ws].nodes| && SplitShape(f, ws, n, k, g) &&
             x in f
    ensures Line(g, x) == Line(f, x)
  {
    forall y | y in f ensures y in g && g[y].parent == f[y].parent && Attached(g, y) == Attached(f, y) {
      ShapeAttached(f, ws, n, k, g, y);
    }
    SameLine(f, g, x);
  }

  lemma ShapeLoose(f: Forest, ws: Con, n: Con, k: nat, g: Forest, c: Con)
    requires WellFormed(f) && WellFormed(g) && ws in f && n !in f && k <= |f[ws].nodes| && SplitShape(f, ws, n, k, g)
    requires c in f && Loose(f, c) && !Inside(f, ws, c)
    ensures Loose(g, c) && !Inside(g, n, c)
  {
    ShapeLines(f, ws, n, k, g, ws);
    InsideUnfolds(g, n, c);
  }

  lemma StillLoose(f: Forest, c: Con, ws: Con, n: Con)
    requires CanAttachInside(f, c, ws, n)
    ensures var g := SplitAdded(f, ws, n); WellFormed(g) && n in g && Loose(g, c) && !Inside(g, n, c)
  {
    SplitEffect(f, ws, n);
    ShapeLoose(f, ws, n, Place(WithSplit(f, ws, n), n, ws, None, false), SplitAdded(f, ws, n), c);
  }

  lemma InsideShape(f: Forest, c: Con, ws: Con, n: Con, k: nat, h: Forest)
    requires WellFormed(f) && ws in f && c in f && n !in f && k <= |f[ws].nodes| && SplitShape(f, ws, n, k, h)
    requires c != ws && f[c].ty != FloatingCon
    ensures var g := Listed(h, c, n, 0);
            && g[c].parent == n && g[n].parent == ws && g[n].nodes == g[n].focus == [c] &&
               g[n].layout == f[ws].workspaceLayout
            && g[ws].focus == f[ws].focus + [n] && g[ws].nodes == Inserted(f[ws].nodes, k, n)
  {
    assert Listing(h[n], c, f[c].ty, 0) == h[n].(nodes := [c], focus := [c]);
  }

  /** The tree stays well formed; the window is alone in the new split, which has
    * the workspace's layout for windows. */
  lemma AttachInsideKeeps(f: Forest, c: Con, ws: Con, n: Con)
    requires CanAttachInside(f, c, ws, n)
    ensures var g := AttachInside(f, c, ws, n);
            && WellFormed(g) && Attached(g, c) && g[c].parent == n && Attached(g, n) && g[n].parent == ws
            && g[n].nodes == g[n].focus == [c] && g[n].layout == f[ws].workspaceLayout
            && g[ws].focus == f[ws].focus + [n]
  {
    var h := SplitAdded(f, ws, n);
    StillLoose(f, c, ws, n);
    SplitEffect(f, ws, n);
    AttachKeeps(h, c, n, 0);
    InsideUnfolds(f, ws, c);
    InsideShape(f, c, ws, n, Place(WithSplit(f, ws, n), n, ws, None, false), h);
  }

  lemma SplitRecent(f: Forest, ws: Con, n: Con, x: Con)
    requires ws in f && n !in f && MostRecent(f, ws, x)
    ensures MostRecent(WithSplit(f, ws, n), ws, x)
  {
    var g := WithSplit(f, ws, n);
    var i :| 0 <= i < |f[ws].focus| && f[ws].focus[i] == x && x in f && f[x].ty != FloatingCon &&
             forall j :: 0 <= j < i ==> f[ws].focus[j] in f && f[f[ws].focus[j]].ty == FloatingCon;
    assert g[ws].focus[i] == x;
  }

  lemma SplitAddedFollows(f: Forest, ws: Con, n: Con, x: Con)
    requires WellFormed(f) && ws in f && n !in f && f[ws].ty == Workspace && MostRecent(f, ws, x)
    ensures Follows(SplitAdded(f, ws, n)[ws].nodes, x, n)
  {
    SplitRecent(f, ws, n, x);
    SplitReady(f, ws, n);
    SplitListed(f, ws, n);
    AttachBehindFocused(WithSplit(f, ws, n), n, ws, None, x);
  }

  /** On a workspace with windows the new split directly follows the most recently
    * focused tiling child. */
  lemma SplitFollows(f: Forest, c: Con, ws: Con, n: Con, x: Con)
    requires CanAttachInside(f, c, ws, n) && MostRecent(f, ws, x)
    ensures Follows(AttachInside(f, c, ws, n)[ws].nodes, x, n)
  {
    SplitAddedFollows(f, ws, n, x);
    assert Inside(f, ws, ws);
  }

  /** A window attached to an empty workspace that was given a layout is in a split
    * of that layout, if that is stacked, tabbed or scrolling ... */
  lemma NextWindowSplit(f: Forest, c: Con, ws: Con, n: Con, layout: Layout)
    requires WellFormed(f) && c in f && ws in f && n !in f && c != ws && Loose(f, c) && !Inside(f, ws, c)
    requires f[ws].ty == Workspace && f[c].window.Some? && f[c].ty != FloatingCon && f[c].ty != Workspace
    requires layout == Stacked || layout == Tabbed || layout == Scrolling
    ensures var g := f[ws := LaidOut(f[ws], layout)];
            && CanAttachInside(g, c, ws, n)
            && var h := AttachInside(g, c, ws, n);
               h[c].parent == n && h[n].layout == layout && h[n].nodes == [c] && h[n].parent == ws
  {
    var g := f[ws := LaidOut(f[ws], layout)];
    SameTree(f, g);
    SameLine(f, g, ws);
    forall p | p in g ensures c !in g[p].focus {
      assert c !in f[p].focus;
    }
    AttachInsideKeeps(g, c, ws, n);
  }

  /** ... and directly on the workspace otherwise. */
  lemma NextWindowPlain(f: Forest, c: Con, ws: Con, layout: Layout)
    requires c in f && ws in f && layout != Stacked && layout != Tabbed && layout != Scrolling
    ensures !NeedsSplit(f[ws := LaidOut(f[ws], layout)], c, ws)
  {
  }

  // ---------------------------------------------------------------- on the heap

  method MakeSplit(ws: Con) returns (split: Con)
    ensures fresh(split) && Snapshot(split) == Fresh(None).(parent := ws, layout := ws.workspaceLayout)
  {
    split := new Con(None);
    split.parent := ws;
    split.layout := ws.workspaceLayout;
  }

  lemma SharesShown(con: Con, cons: set<Con>)
    requires con in cons && WellFormed(View(cons))
    ensures Distinct(con.nodes) && (forall c :: c in con.nodes ==> c in cons) &&
            Percents(con.nodes) == Shares(View(cons), con.nodes)
  {
    NodesKnown(View(cons), con);
    assert View(cons)[con] == Snapshot(con);
  }

  method FixShares(con: Con, ghost cons: set<Con>)
    requires con in cons && WellFormed(View(cons))
    modifies con.nodes`percent
    ensures |NewShares(old(View(cons)), con)| == |con.nodes|
    ensures forall c :: c in con.nodes ==> c.percent == NewShares(old(View(cons)), con)[IndexOf(con.nodes, c)]
  {
    ghost var shares := NewShares(View(cons), con);
    SharesShown(con, cons);
    ConFixPercent(con);
    assert Percents(con.nodes) == shares;
    forall c | c in con.nodes ensures c.percent == shares[IndexOf(con.nodes, c)] {
      assert Percents(con.nodes)[IndexOf(con.nodes, c)] == c.percent;
    }
  }

  /** con_fix_percent takes the forest where its function does. */
  method FixPercent(con: Con, ghost cons: set<Con>)
    requires con in cons && WellFormed(View(cons))
    modifies cons`percent
    ensures View(cons) == Reshared(old(View(cons)), con)
  {
    ghost var f := View(cons);
    ghost var g := Reshared(f, con);
    SharesShown(con, cons);
    assert f[con].nodes == con.nodes;
    FixShares(con, cons);
    ShowView(cons, g);
  }

  method ListSplit(ws: Con, ghost cons: set<Con>) returns (split: Con)
    requires ws in cons && WellFormed(View(cons)) && ws.ty == Workspace
    modifies ws`nodes, ws`floats, ws`focus
    ensures fresh(split)
    ensures CanAttach(WithSplit(old(View(cons)), ws, split), split, ws, None)
    ensures View(cons + {split}) == Attach(WithSplit(old(View(cons)), ws, split), split, ws, None, false)
  {
    ghost var f := View(cons);
    split := MakeSplit(ws);
    ShowView(cons + {split}, WithSplit(f, ws, split));
    SplitReady(f, ws, split);
    ContainerOps.ConAttach(split, ws, null, false, cons + {split});
  }

  /** workspace_attach_to on a workspace with a layout for its windows. */
  method AddSplit(ws: Con, ghost cons: set<Con>) returns (split: Con)
    requires ws in cons && WellFormed(View(cons)) && ws.ty == Workspace
    modifies ws`nodes, ws`floats, ws`focus, cons`percent
    ensures fresh(split) && View(cons + {split}) == SplitAdded(old(View(cons)), ws, split)
  {
    ghost var f := View(cons);
    split := ListSplit(ws, cons);
    SplitListed(f, ws, split);
    FixPercent(ws, cons + {split});
  }

  /** What _con_attach asks for, whichever branch it takes. */
  ghost predicate CanAttachAnywhere(f: Forest, c: Con, p: Con, previous: Option<Con>) {
    CanAttach(f, c, p, previous) || (WellFormed(f) && c in f && p in f && Loose(f, c) && !Inside(f, p, c) &&
      NeedsSplit(f, c, p))
  }

  /** _con_attach */
  method ConAttach(con: Con, parent: Con, previous: Con?, ignoreFocus: bool, ghost cons: set<Con>) returns (split: Con?)
    requires con in cons && parent in cons && CanAttachAnywhere(View(cons), con, parent, Maybe(previous))
    modifies con`parent, parent`nodes, parent`floats, parent`focus, cons`percent
    ensures split == null <==> !old(NeedsSplit(View(cons), con, parent))
    ensures split == null ==> View(cons) == old(Attach(View(cons), con, parent, Maybe(previous), ignoreFocus))
    ensures split != null ==> fresh(split) && View(cons + {split}) == AttachInside(old(View(cons)), con, parent, split)
  {
    ghost var f := View(cons);
    if con.ty != FloatingCon && con.ty != Workspace && con.window.Some? && parent.ty == Workspace &&
      parent.workspaceLayout != Default {
      split := AddSplit(parent, cons);
      Enlist(con, split, 0, cons + {split});
    } else {
      ContainerOps.ConAttach(con, parent, previous, ignoreFocus, cons);
      split := null;
    }
  }
}
