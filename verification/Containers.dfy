/** The containers of con.c: the heap records, and forests of them as values. */
module Containers {
  import opened Order

  datatype ConType = Root | Output | Plain | FloatingCon | Workspace | Dockarea

  datatype Layout = Default | Stacked | Tabbed | DockLayout | OutputLayout | SplitV | SplitH | Scrolling

  datatype FullscreenMode = NotFullscreen | OnOutput | Global

  datatype Rect = Rect(x: int, y: int, width: int, height: int)

  /** The parts of a client window that decide where its container goes. */
  datatype Window = Window(cls: Option<string>, instance: Option<string>)

  function Fresh(window: Option<Window>): Node {
    Node(Plain, 0, window, null, [], [], [], false, false, false, NotFullscreen,
         0.0, Default, Default, Default, Rect(0, 0, 0, 0), Rect(0, 0, 0, 0))
  }

  ghost function Snapshot(c: Con): Node
    reads c
  {
    Node(c.ty, c.num, c.window, c.parent, c.nodes, c.floats, c.focus,
         c.floating, c.urgent, c.urgencyTimer, c.fullscreen,
         c.percent, c.layout, c.lastSplitLayout, c.workspaceLayout, c.rect, c.windowRect)
  }

  /** A container.  Each tail queue is the sequence of its entries (module
    * TailQueue shows that the macros keep pointers and sequence in step). */
  class Con {
    var ty: ConType
    var num: int
    var window: Option<Window>
    var parent: Con?
    var nodes: seq<Con>      // nodes_head: tiling children
    var floats: seq<Con>     // floating_head
    var focus: seq<Con>      // focus_head: all children, most recently focused first
    var floating: bool       // floating >= FLOATING_AUTO_ON
    var urgent: bool
    var urgencyTimer: bool
    var fullscreen: FullscreenMode
    var percent: real
    var layout: Layout
    var lastSplitLayout: Layout
    var workspaceLayout: Layout
    var rect: Rect
    var windowRect: Rect

    /** con_new(NULL, window): a container on its own. */
    constructor (window: Option<Window>)
      ensures Snapshot(this) == Fresh(window)
    {
      ty, num, this.window, parent := Plain, 0, window, null;
      nodes, floats, focus := [], [], [];
      floating, urgent, urgencyTimer, fullscreen := false, false, false, NotFullscreen;
      percent, layout, lastSplitLayout, workspaceLayout := 0.0, Default, Default, Default;
      rect, windowRect := Rect(0, 0, 0, 0), Rect(0, 0, 0, 0);
    }
  }

  /** The contents of a container. */
  datatype Node = Node(
    ty: ConType, num: int, window: Option<Window>, parent: Con?,
    nodes: seq<Con>, floats: seq<Con>, focus: seq<Con>,
    floating: bool, urgent: bool, urgencyTimer: bool, fullscreen: FullscreenMode,
    percent: real, layout: Layout, lastSplitLayout: Layout, workspaceLayout: Layout,
    rect: Rect, windowRect: Rect)

  type Forest = map<Con, Node>

  ghost function View(cons: set<Con>): (f: Forest)
    reads cons
  {
    map c | c in cons :: Snapshot(c)
  }

  // ---------------------------------------------------------------- the invariant

  /** Nothing is listed twice, and every child has an entry in the focus list. */
  ghost predicate OwnLists(n: Node) {
    && Distinct(n.nodes) && Distinct(n.floats) && Distinct(n.focus)
    && (forall c :: c in n.nodes ==> c in n.focus)
    && (forall c :: c in n.floats ==> c in n.focus)
  }

  ghost predicate ListsAgree(f: Forest) {
    forall p {:trigger f[p]} :: p in f ==> OwnLists(f[p])
  }

  /** A listed container names its lister as its parent, and is in the floating
    * list exactly when it is a CT_FLOATING_CON. */
  ghost predicate EdgeAgrees(f: Forest, p: Con, c: Con)
    requires p in f
  {
    && c in f && f[c].parent == p
    && (c in f[p].floats <==> f[c].ty == FloatingCon)
    && (c in f[p].nodes <==> f[c].ty != FloatingCon)
  }

  ghost predicate ParentsAgree(f: Forest) {
    forall p, c {:trigger c in f[p].focus} :: p in f && c in f[p].focus ==> EdgeAgrees(f, p, c)
  }

  /** Children lie strictly deeper than their parents. */
  ghost predicate Ranked(f: Forest, older depth: map<Con, nat>) {
    && depth.Keys == f.Keys
    && (forall p, c {:trigger c in f[p].focus} :: p in f && c in f[p].focus && c in f ==> depth[p] < depth[c])
  }

  ghost predicate Acyclic(f: Forest) {
    exists depth :: Ranked(f, depth)
  }

  /** A forest of ordered trees, each with two orders over the same children. */
  ghost predicate WellFormed(f: Forest) {
    ListsAgree(f) && ParentsAgree(f) && Acyclic(f)
  }

  // ---------------------------------------------------------------- ancestry

  ghost predicate Attached(f: Forest, c: Con)
    requires c in f
  {
    f[c].parent != null && f[c].parent in f && c in f[f[c].parent].focus
  }

  ghost function Depths(f: Forest): (depth: map<Con, nat>)
    requires Acyclic(f)
    ensures Ranked(f, depth)
  {
    var depth :| Ranked(f, depth);
    depth
  }

  /** `c`, its parent, and so on up to a container that is not listed anywhere. */
  ghost function Line(f: Forest, c: Con): (line: seq<Con>)
    requires Acyclic(f) && c in f
    ensures |line| > 0 && line[0] == c
    ensures forall x :: x in line ==> x in f
    decreases Depths(f)[c]
  {
    if Attached(f, c) then [c] + Line(f, f[c].parent) else [c]
  }

  /** `x` is `a` or a descendant of `a`. */
  ghost predicate Inside(f: Forest, x: Con, a: Con)
    requires Acyclic(f) && x in f
  {
    a in Line(f, x)
  }

  lemma InsideUnfolds(f: Forest, x: Con, a: Con)
    requires Acyclic(f) && x in f
    ensures Inside(f, x, a) <==> x == a || (Attached(f, x) && Inside(f, f[x].parent, a))
  {
  }

  /** An ancestor is no deeper. */
  lemma {:induction false} InsideIsDeeper(f: Forest, depth: map<Con, nat>, x: Con, a: Con)
    requires Acyclic(f) && Ranked(f, depth) && x in f && Inside(f, x, a)
    ensures a in f && depth[a] <= depth[x] && (a != x ==> depth[a] < depth[x])
    decreases Depths(f)[x]
  {
    if x != a {
      InsideIsDeeper(f, depth, f[x].parent, a);
    }
  }

  lemma {:induction false} InsideTrans(f: Forest, x: Con, y: Con, z: Con)
    requires Acyclic(f) && x in f && y in f && Inside(f, x, y) && Inside(f, y, z)
    ensures Inside(f, x, z)
    decreases Depths(f)[x]
  {
    if x != y {
      InsideTrans(f, f[x].parent, y, z);
    }
  }

  lemma NotOwnChild(f: Forest, p: Con)
    requires Acyclic(f) && p in f
    ensures p !in f[p].focus
  {
    var depth := Depths(f);
  }

  /** Two ancestors of one container lie on one line. */
  lemma {:induction false} AncestorsCompare(f: Forest, x: Con, a: Con, b: Con)
    requires Acyclic(f) && x in f && Inside(f, x, a) && Inside(f, x, b)
    ensures a in f && b in f && (Inside(f, a, b) || Inside(f, b, a))
    decreases Depths(f)[x]
  {
    if x != a && x != b {
      AncestorsCompare(f, f[x].parent, a, b);
    }
  }

  /** Everything in the tree below `c`, and `c`. */
  ghost function Below(f: Forest, c: Con): set<Con>
    requires Acyclic(f)
  {
    set x | x in f && Inside(f, x, c)
  }

  /** A child's tree is properly smaller: descending ends. */
  lemma BelowShrinks(f: Forest, c: Con)
    requires Acyclic(f) && c in f && Attached(f, c)
    ensures Below(f, c) < Below(f, f[c].parent)
  {
    var p := f[c].parent;
    forall x | x in Below(f, c) ensures x in Below(f, p) {
      InsideUnfolds(f, c, p);
      InsideTrans(f, x, c, p);
    }
    if Inside(f, p, c) {
      InsideIsDeeper(f, Depths(f), p, c);
    }
    assert p in Below(f, p) && p !in Below(f, c);
  }

  lemma NodesKnown(f: Forest, p: Con)
    requires WellFormed(f) && p in f
    ensures Distinct(f[p].nodes) && forall c :: c in f[p].nodes ==> c in f && Attached(f, c) && f[c].parent == p
  {
    assert OwnLists(f[p]);
    forall c | c in f[p].nodes ensures c in f && Attached(f, c) && f[c].parent == p {
      assert c in f[p].focus && EdgeAgrees(f, p, c);
    }
  }

  /** What lies above `x` is read off the links on the way up only. */
  lemma {:induction false} SameLine(f: Forest, g: Forest, x: Con)
    requires Acyclic(f) && Acyclic(g) && x in f
    requires forall y :: y in Line(f, x) ==> y in g && Attached(g, y) == Attached(f, y)
    requires forall y :: y in Line(f, x) && Attached(f, y) ==> g[y].parent == f[y].parent
    ensures Line(g, x) == Line(f, x)
    decreases Depths(f)[x]
  {
    if Attached(f, x) {
      SameLine(f, g, f[x].parent);
    }
  }

  /** The same containers below the same parents. */
  ghost predicate SameAncestry(f: Forest, g: Forest) {
    g.Keys == f.Keys &&
      forall x {:trigger Attached(g, x)} :: x in f ==>
        g[x].ty == f[x].ty && g[x].parent == f[x].parent && Attached(g, x) == Attached(f, x)
  }

  lemma AncestryLine(f: Forest, g: Forest, x: Con)
    requires Acyclic(f) && Acyclic(g) && SameAncestry(f, g) && x in f
    ensures Line(g, x) == Line(f, x)
  {
    SameLine(f, g, x);
  }

  /** Only these fields shape the tree. */
  lemma SameTree(f: Forest, g: Forest)
    requires WellFormed(f) && g.Keys == f.Keys
    requires forall p {:trigger g[p]} :: p in f ==>
               && g[p].ty == f[p].ty && g[p].parent == f[p].parent
               && g[p].nodes == f[p].nodes && g[p].floats == f[p].floats && g[p].focus == f[p].focus
    ensures WellFormed(g)
  {
    forall p, c | p in g && c in g[p].focus ensures EdgeAgrees(g, p, c) {
      assert EdgeAgrees(f, p, c);
    }
    assert Ranked(g, Depths(f));
    forall p | p in g ensures OwnLists(g[p]) {
      assert OwnLists(f[p]);
    }
  }

  /** A childless newcomer disturbs nobody. */
  lemma NewcomerKeeps(f: Forest, c: Con, n: Node)
    requires WellFormed(f) && c !in f && n.nodes == n.floats == n.focus == []
    ensures WellFormed(f[c := n])
  {
    var g := f[c := n];
    forall p, x | p in g && x in g[p].focus ensures EdgeAgrees(g, p, x) && p in f && x in f[p].focus {
      assert EdgeAgrees(f, p, x);
    }
    assert Ranked(g, Depths(f)[c := 0]);
    forall p | p in g ensures OwnLists(g[p]) {
      assert p in f ==> OwnLists(f[p]);
    }
  }
}
