/** A swap between two floating windows, where it matters that enabling the
  * second one has put its floating container on top. */
module FloatingSwap {
  import opened Order
  import opened Containers
  import opened Swapping
  import opened Urgency
  import opened SwapUrgency
  import opened FullscreenSearch
  import opened Workspaces
  import opened Activation
  import opened Fullscreen
  import opened SwapModes
  import opened SwapWhole
  import opened WindowRuns

  /** The root with an output, its content container and a workspace on it, where
    * the windows `c` and `y` float in `p` and `q`. */
  datatype Desk = Desk(root: Con, output: Con, content: Con, w: Con, p: Con, q: Con, c: Con, y: Con)

  ghost predicate Apart(n: Desk) {
    && n.root !in {n.output, n.content, n.w, n.p, n.q, n.c, n.y} && n.output !in {n.content, n.w, n.p, n.q, n.c, n.y}
    && n.content !in {n.w, n.p, n.q, n.c, n.y} && n.w !in {n.p, n.q, n.c, n.y} && n.p !in {n.q, n.c, n.y}
    && n.q !in {n.c, n.y} && n.c != n.y
  }

  /** `c` is fullscreen on its output and `y` global; `q` is on top of `p`. */
  ghost function Floats(n: Desk): Forest {
    var e := Fresh(None);
    map[
      n.root := e.(ty := Root, nodes := [n.output], focus := [n.output]),
      n.output := e.(ty := Output, parent := n.root, nodes := [n.content], focus := [n.content]),
      n.content := e.(parent := n.output, nodes := [n.w], focus := [n.w]),
      n.w := e.(ty := Workspace, parent := n.content, floats := [n.p, n.q], focus := [n.q, n.p],
        fullscreen := OnOutput),
      n.p := e.(ty := FloatingCon, parent := n.w, nodes := [n.c], focus := [n.c]),
      n.q := e.(ty := FloatingCon, parent := n.w, nodes := [n.y], focus := [n.y]),
      n.c := e.(parent := n.p, floating := true, fullscreen := OnOutput),
      n.y := e.(parent := n.q, floating := true, fullscreen := Global)]
  }

  /** The workspace has the focus. */
  ghost function Start(n: Desk): State {
    State(Floats(n), n.w)
  }

  /** Such a tree, with `u` in `p` and `v` in `q`. */
  ghost predicate AreFloats(f: Forest, n: Desk, u: Con, v: Con) {
    && WellFormed(f) && Apart(n) && f.Keys == {n.root, n.output, n.content, n.w, n.p, n.q, n.c, n.y}
    && f[n.root].parent == null && f[n.output].parent == n.root && f[n.content].parent == n.output &&
       f[n.w].parent == n.content
    && f[n.p].parent == f[n.q].parent == n.w && ((u == n.c && v == n.y) || (u == n.y && v == n.c))
    && f[u].parent == n.p && f[v].parent == n.q
    && Attached(f, n.output) && Attached(f, n.content) && Attached(f, n.w) && Attached(f, n.p) && Attached(f, n.q)
    && Attached(f, n.c) && Attached(f, n.y)
    && f[n.w].nodes == [] && f[n.w].floats == [n.p, n.q] && f[n.p].nodes == [u] && f[n.q].nodes == [v]
    && f[n.root].floats == f[n.output].floats == f[n.content].floats == []
    && f[n.p].floats == f[n.q].floats == f[n.c].floats == f[n.y].floats == [] && f[n.c].nodes == f[n.y].nodes == []
  }

  /** What comes along with it. */
  ghost predicate Marked(f: Forest, n: Desk) {
    && f.Keys == {n.root, n.output, n.content, n.w, n.p, n.q, n.c, n.y}
    && f[n.root].ty == Root && f[n.output].ty == Output && f[n.content].ty == f[n.c].ty == f[n.y].ty == Plain
    && f[n.w].ty == Workspace && f[n.p].ty == f[n.q].ty == FloatingCon && f[n.c].floating && f[n.y].floating
    && !f[n.root].floating && !f[n.output].floating && !f[n.content].floating
    && !f[n.w].floating && !f[n.p].floating && !f[n.q].floating
    && f[n.c].fullscreen == OnOutput && f[n.y].fullscreen == Global && f[n.w].fullscreen == OnOutput
    && f[n.root].fullscreen == f[n.output].fullscreen == f[n.content].fullscreen == f[n.p].fullscreen ==
       f[n.q].fullscreen == NotFullscreen
  }

  // ---------------------------------------------------------------- the tree

  lemma FloatsEdges(n: Desk)
    requires Apart(n)
    ensures ListsAgree(Floats(n)) && ParentsAgree(Floats(n))
  {
  }

  lemma FloatsTree(n: Desk)
    requires Apart(n)
    ensures WellFormed(Floats(n))
  {
    FloatsEdges(n);
    var depth: map<Con, nat> := map[n.root := 0, n.output := 1, n.content := 2, n.w := 3, n.p := 4, n.q := 4, n.c := 5,
      n.y := 5];
    assert Ranked(Floats(n), depth);
  }

  lemma FloatsShape(n: Desk)
    requires Apart(n)
    ensures AreFloats(Floats(n), n, n.c, n.y) && Marked(Floats(n), n)
  {
    FloatsTree(n);
  }

  lemma DeskLines(f: Forest, n: Desk, u: Con, v: Con)
    requires AreFloats(f, n, u, v)
    ensures Line(f, n.root) == [n.root] && Line(f, n.output) == [n.output, n.root] &&
            Line(f, n.content) == [n.content, n.output, n.root]
    ensures Line(f, n.w) == [n.w, n.content, n.output, n.root]
  {
    assert Line(f, n.output) == [n.output] + Line(f, n.root);
    assert Line(f, n.content) == [n.content] + Line(f, n.output);
    assert Line(f, n.w) == [n.w] + Line(f, n.content);
  }

  lemma FloatsLines(f: Forest, n: Desk, u: Con, v: Con)
    requires AreFloats(f, n, u, v)
    ensures Line(f, n.p) == [n.p, n.w, n.content, n.output, n.root] &&
            Line(f, n.q) == [n.q, n.w, n.content, n.output, n.root]
    ensures Line(f, u) == [u, n.p, n.w, n.content, n.output, n.root] &&
            Line(f, v) == [v, n.q, n.w, n.content, n.output, n.root]
  {
    DeskLines(f, n, u, v);
    assert Line(f, n.p) == [n.p] + Line(f, n.w) && Line(f, n.q) == [n.q] + Line(f, n.w);
    assert Line(f, u) == [u] + Line(f, n.p) && Line(f, v) == [v] + Line(f, n.q);
  }

  lemma FloatsWorkspaces(f: Forest, n: Desk, u: Con, v: Con)
    requires AreFloats(f, n, u, v) && Marked(f, n)
    ensures WorkspaceOf(f, n.c) == WorkspaceOf(f, n.y) == WorkspaceOf(f, n.w) == n.w && Enabling(f, n.c) &&
            Enabling(f, n.y)
  {
    assert WorkspaceOf(f, n.w) == n.w;
    assert WorkspaceOf(f, n.p) == n.w && WorkspaceOf(f, n.q) == n.w;
    assert WorkspaceOf(f, u) == WorkspaceOf(f, n.p) && WorkspaceOf(f, v) == WorkspaceOf(f, n.q);
  }

  lemma InsideRoot(f: Forest, n: Desk, u: Con, v: Con, z: Con)
    requires AreFloats(f, n, u, v) && z in f
    ensures StrictlyInside(f, z, n.root) <==> z != n.root
  {
    DeskLines(f, n, u, v);
    FloatsLines(f, n, u, v);
  }

  lemma InsideWorkspace(f: Forest, n: Desk, u: Con, v: Con, z: Con)
    requires AreFloats(f, n, u, v) && z in f
    ensures StrictlyInside(f, z, n.w) <==> z == n.p || z == n.q || z == n.c || z == n.y
  {
    DeskLines(f, n, u, v);
    FloatsLines(f, n, u, v);
  }

  lemma FloatsHits(f: Forest, n: Desk, u: Con, v: Con, z: Con)
    requires AreFloats(f, n, u, v) && Marked(f, n) && z in f
    ensures Hit(f, n.root, Global, z) <==> z == n.y
    ensures Hit(f, n.w, OnOutput, z) <==> z == n.c
    ensures StrictlyInside(f, n.y, n.w)
  {
    InsideRoot(f, n, u, v, z);
    InsideWorkspace(f, n, u, v, z);
    InsideWorkspace(f, n, u, v, n.y);
  }

  // ---------------------------------------------------------------- searching it

  lemma ServedIs(f: Forest, queue: seq<Con>, next: seq<Con>)
    requires queue != [] && queue[0] in f && next == queue[1..] + f[queue[0]].nodes + f[queue[0]].floats
    ensures Served(f, queue) == next
  {
  }

  lemma Visited(f: Forest, top: Con, queue: seq<Con>, done: set<Con>, next: seq<Con>, after: set<Con>)
    requires WellFormed(f) && queue != [] && Frontier(f, top, queue, done) && queue[0] in f
    requires next == queue[1..] + f[queue[0]].nodes + f[queue[0]].floats && after == done + {queue[0]}
    ensures Frontier(f, top, next, after)
    ensures Visits(f, top, queue, done) == [queue[0]] + Visits(f, top, next, after)
  {
    ServedIs(f, queue, next);
    VisitsFront(f, top, queue, done);
  }

  lemma SearchWindows(f: Forest, top: Con, u: Con, v: Con, done: set<Con>)
    requires WellFormed(f) && Frontier(f, top, [u, v], done) && u in f && v in f
    requires f[u].nodes == f[u].floats == f[v].nodes == f[v].floats == []
    ensures Visits(f, top, [u, v], done) == [u, v]
  {
    Visited(f, top, [u, v], done, [v], done + {u});
    Visited(f, top, [v], done + {u}, [], done + {u} + {v});
  }

  lemma SearchSecond(f: Forest, top: Con, q: Con, u: Con, v: Con, done: set<Con>)
    requires WellFormed(f) && Frontier(f, top, [q, u], done) && {q, u, v} <= f.Keys
    requires f[q].nodes == [v] && f[q].floats == f[u].nodes == f[u].floats == f[v].nodes == f[v].floats == []
    ensures Visits(f, top, [q, u], done) == [q, u, v]
  {
    Visited(f, top, [q, u], done, [u, v], done + {q});
    SearchWindows(f, top, u, v, done + {q});
    assert [q] + [u, v] == [q, u, v];
  }

  lemma SearchFirst(f: Forest, top: Con, p: Con, q: Con, u: Con, v: Con, done: set<Con>)
    requires WellFormed(f) && Frontier(f, top, [p, q], done) && {p, q, u, v} <= f.Keys
    requires f[p].nodes == [u] && f[q].nodes == [v] && f[p].floats == f[q].floats == []
    requires f[u].nodes == f[u].floats == f[v].nodes == f[v].floats == []
    ensures Visits(f, top, [p, q], done) == [p, q, u, v]
  {
    Visited(f, top, [p, q], done, [q, u], done + {p});
    SearchSecond(f, top, q, u, v, done + {p});
    assert [p] + [q, u, v] == [p, q, u, v];
  }

  lemma SearchFrom(f: Forest, w: Con)
    requires WellFormed(f) && w in f
    ensures Frontier(f, w, [w], {}) && BreadthFirst(f, w) == Visits(f, w, [w], {})
  {
    SearchStarts(f, w);
  }

  /** Two containers on a workspace, with a window in each. */
  lemma SearchFloats(f: Forest, w: Con, p: Con, q: Con, u: Con, v: Con)
    requires WellFormed(f) && {w, p, q, u, v} <= f.Keys
    requires f[w].nodes == [] && f[w].floats == [p, q] && f[p].nodes == [u] && f[q].nodes == [v]
    requires f[p].floats == f[q].floats == f[u].nodes == f[u].floats == f[v].nodes == f[v].floats == []
    ensures BreadthFirst(f, w) == [w, p, q, u, v]
  {
    SearchFrom(f, w);
    Visited(f, w, [w], {}, [p, q], {w});
    SearchFirst(f, w, p, q, u, v, {w});
    assert [w] + [p, q, u, v] == [w, p, q, u, v];
  }

  /** What a search of the workspace goes by, with `c` the only hit. */
  ghost predicate Searched(f: Forest, w: Con, order: seq<Con>, c: Con, y: Con) {
    && WellFormed(f) && w in f && c in f && y in f && BreadthFirst(f, w) == order && WorkspaceOf(f, c) == w &&
       StrictlyInside(f, y, w)
    && forall z :: z in f ==> (Hit(f, w, OnOutput, z) <==> z == c)
  }

  lemma FloatsSearched(f: Forest, n: Desk, u: Con, v: Con)
    requires AreFloats(f, n, u, v) && Marked(f, n)
    ensures Searched(f, n.w, [n.w, n.p, n.q, u, v], n.c, n.y)
  {
    FloatsWorkspaces(f, n, u, v);
    SearchFloats(f, n.w, n.p, n.q, u, v);
    forall z | z in f ensures (Hit(f, n.w, OnOutput, z) <==> z == n.c) && StrictlyInside(f, n.y, n.w) {
      FloatsHits(f, n, u, v, z);
    }
  }

  /** With `y` visited before `c` it is met first ... */
  lemma BeforeIsMet(f: Forest, w: Con, p: Con, q: Con, c: Con, y: Con)
    requires Searched(f, w, [w, p, q, y, c], c, y) && w != c && p != c && q != c && p in f && q in f
    ensures MetFirst(f, c, y)
  {
    assert HitAt(f, BreadthFirst(f, w), w, OnOutput, y, 3);
  }

  /** ... and behind it is not. */
  lemma BehindIsNot(f: Forest, w: Con, p: Con, q: Con, c: Con, y: Con)
    requires Searched(f, w, [w, q, p, c, y], c, y) && w != y && p != y && q != y && c != y
    ensures !MetFirst(f, c, y)
  {
    var s := [w, q, p, c, y];
    assert Hit(f, w, OnOutput, s[3]);
  }

  // ---------------------------------------------------------------- the swap

  lemma FloatsRooted(f: Forest, n: Desk, u: Con, v: Con)
    requires AreFloats(f, n, u, v)
    ensures Rooted(f)
  {
  }

  lemma FloatsPlaced(f: Forest, n: Desk, u: Con, v: Con)
    requires AreFloats(f, n, u, v) && f[n.w].ty == Workspace
    ensures FloatsOnWorkspaces(f)
  {
  }

  lemma WindowHeld(f: Forest, n: Desk, u: Con, v: Con, z: Con)
    requires AreFloats(f, n, u, v) && Marked(f, n) && z in f && f[z].floating
    ensures Attached(f, z) && f[f[z].parent].ty == FloatingCon
  {
    assert z == n.c || z == n.y;
  }

  lemma FloatsHeld(f: Forest, n: Desk, u: Con, v: Con)
    requires AreFloats(f, n, u, v) && Marked(f, n)
    ensures FloatingHeld(f)
  {
    forall z | z in f && f[z].floating ensures Attached(f, z) && f[f[z].parent].ty == FloatingCon {
      WindowHeld(f, n, u, v, z);
    }
  }

  lemma FloatsShelved(f: Forest, n: Desk, u: Con, v: Con)
    requires AreFloats(f, n, u, v) && Marked(f, n) && f[n.content].nodes == [n.w]
    ensures WorkspacesShelved(f)
  {
  }

  lemma FloatsSound(n: Desk)
    requires Apart(n)
    ensures Sound(Start(n))
  {
    FloatsShape(n);
    FloatsRooted(Floats(n), n, n.c, n.y);
    FloatsPlaced(Floats(n), n, n.c, n.y);
    FloatsHeld(Floats(n), n, n.c, n.y);
    FloatsShelved(Floats(n), n, n.c, n.y);
  }

  lemma FloatsGood(n: Desk)
    requires Apart(n)
    ensures Good(Start(n), n.root)
  {
    FloatsSound(n);
    FloatsShape(n);
    forall z | z in Floats(n) ensures Hit(Floats(n), n.root, Global, z) <==> z == n.y {
      FloatsHits(Floats(n), n, n.c, n.y, z);
    }
  }

  lemma FloatsApart(f: Forest, n: Desk)
    requires AreFloats(f, n, n.c, n.y)
    ensures !Inside(f, n.c, n.y) && !Inside(f, n.y, n.c) && StrictlyInside(f, n.c, n.root) &&
            StrictlyInside(f, n.y, n.root)
  {
    FloatsLines(f, n, n.c, n.y);
  }

  lemma FloatsSwappable(n: Desk)
    requires Apart(n)
    ensures Swappable(Start(n), n.root, n.c, n.y)
  {
    FloatsSound(n);
    FloatsShape(n);
    FloatsWorkspaces(Floats(n), n, n.c, n.y);
    FloatsApart(Floats(n), n);
  }

  /** What an exchange makes of the fields that matter here. */
  ghost predicate FieldsSwapped(f: Forest, g: Forest, a: Con, b: Con) {
    && a in f && b in f && g.Keys == f.Keys
    && g[a].parent == f[b].parent && g[b].parent == f[a].parent && g[a].floating == f[b].floating &&
       g[b].floating == f[a].floating
    && (forall z {:trigger g[z].parent} :: z in f && z != a && z != b ==>
          g[z].parent == f[z].parent && g[z].floating == f[z].floating && Attached(g, z) == Attached(f, z))
    && (forall z {:trigger g[z]} :: z in f ==>
          && g[z].ty == f[z].ty && g[z].fullscreen == f[z].fullscreen && g[z].floats == f[z].floats
          && g[z].nodes == Exchanged(f[z].nodes, a, b))
  }

  lemma SwapFields(f: Forest, a: Con, b: Con)
    requires CanSwap(f, a, b)
    ensures FieldsSwapped(f, Swap(f, a, b), a, b)
  {
    forall z | z in f && z != a && z != b ensures Attached(Swap(f, a, b), z) == Attached(f, z) {
      SwapAttached(f, a, b, z);
    }
  }

  lemma FieldsSwappedFloats(f: Forest, g: Forest, n: Desk)
    requires AreFloats(f, n, n.c, n.y) && Marked(f, n) && FieldsSwapped(f, g, n.c, n.y)
    requires WellFormed(g) && Attached(g, n.c) && Attached(g, n.y)
    ensures AreFloats(g, n, n.y, n.c) && Marked(g, n)
  {
    assert Exchanged([n.c], n.c, n.y) == [n.y] && Exchanged([n.y], n.c, n.y) == [n.c] && Exchanged([], n.c, n.y) == [];
  }

  lemma SwapIsFloats(f: Forest, n: Desk)
    requires AreFloats(f, n, n.c, n.y) && Marked(f, n) && CanSwap(f, n.c, n.y)
    ensures AreFloats(Swap(f, n.c, n.y), n, n.y, n.c) && Marked(Swap(f, n.c, n.y), n)
  {
    SwapKeeps(f, n.c, n.y);
    SwapFields(f, n.c, n.y);
    FieldsSwappedFloats(f, Swap(f, n.c, n.y), n);
  }

  ghost function Over(n: Desk): Desk {
    n.(p := n.q, q := n.p)
  }

  lemma RaisedIsFloats(g: Forest, n: Desk)
    requires Proper(g) && AreFloats(g, n, n.y, n.c) && Marked(g, n)
    ensures AreFloats(Raise(g, n.y), Over(n), n.c, n.y) && Marked(Raise(g, n.y), Over(n))
  {
    assert InsideFloating(g, n.y) == n.p;
    assert Topmost([n.p, n.q], n.p) == [n.q, n.p];
  }

  lemma TopIsNot(g: Forest, n: Desk)
    requires Proper(g) && AreFloats(g, n, n.y, n.c) && Marked(g, n)
    ensures WorkspaceOf(Raise(g, n.y), n.c) == n.w && n.y in Raise(g, n.y) && !MetFirst(Raise(g, n.y), n.c, n.y)
  {
    RaisedIsFloats(g, n);
    var m := Over(n);
    FloatsSearched(Raise(g, n.y), m, n.c, n.y);
    BehindIsNot(Raise(g, n.y), n.w, n.p, n.q, n.c, n.y);
  }

  /** The workspace has the focus before and after the exchange. */
  lemma FocusStays(n: Desk)
    requires Apart(n)
    ensures Swappable(Start(n), n.root, n.c, n.y) && Traded(Start(n), n.c, n.y) == State(Swap(Floats(n), n.c, n.y), n.w)
  {
    FloatsSwappable(n);
    FloatsShape(n);
    FloatsWorkspaces(Floats(n), n, n.c, n.y);
  }

  lemma RaisedOnce(s: State, n: Desk)
    requires Sound(s) && AreFloats(s.tree, n, n.y, n.c) && Marked(s.tree, n) && s.focused == n.w
    ensures RaisedFor(s, n.y) == Raise(s.tree, n.y)
  {
    FloatsWorkspaces(s.tree, n, n.y, n.c);
  }

  lemma ModeStays(s: State, n: Desk)
    requires Ready(s, n.root, n.c, n.y) && AreFloats(s.tree, n, n.y, n.c) && Marked(s.tree, n) && s.focused == n.w
    ensures !Loses(s, n.root, n.c, n.y)
  {
    RaisedOnce(s, n);
    RaisedReady(s, n.root, n.c, n.y);
    TopIsNot(s.tree, n);
  }

  lemma NothingLost(n: Desk)
    requires Apart(n)
    ensures Swappable(Start(n), n.root, n.c, n.y) && !SwapLoses(Start(n), n.root, n.c, n.y)
  {
    FocusStays(n);
    FloatsShape(n);
    SwapIsFloats(Floats(n), n);
    TradedReady(Start(n), n.root, n.c, n.y);
    ModeStays(Traded(Start(n), n.c, n.y), n);
  }

  lemma MetAtOnce(f: Forest, n: Desk)
    requires AreFloats(f, n, n.c, n.y) && Marked(f, n) && CanSwap(f, n.c, n.y)
    ensures var g := Swap(f, n.c, n.y);
            WellFormed(g) && n.c in g && n.y in g && WorkspaceOf(g, n.c) != null && MetFirst(g, n.c, n.y)
  {
    SwapIsFloats(f, n);
    FloatsSearched(Swap(f, n.c, n.y), n, n.y, n.c);
    BeforeIsMet(Swap(f, n.c, n.y), n.w, n.p, n.q, n.c, n.y);
  }

  /** Right after the exchange a search meets `y` before `c`; but enabling `y` puts
    * its floating container on top, the search then meets `c`, and the modes are
    * exchanged. */
  lemma RaiseSavesMode(n: Desk, delayed: bool)
    requires Apart(n)
    ensures Good(Start(n), n.root) && Swappable(Start(n), n.root, n.c, n.y)
    ensures Floats(n)[n.c].fullscreen == OnOutput && Floats(n)[n.y].fullscreen == Global
    ensures var g := Swap(Floats(n), n.c, n.y);
            WellFormed(g) && n.c in g && n.y in g && WorkspaceOf(g, n.c) != null && MetFirst(g, n.c, n.y)
    ensures var t := SwapEntirely(Start(n), n.root, n.c, n.y, delayed).tree;
            n.c in t && n.y in t && t[n.c].fullscreen == Global && t[n.y].fullscreen == OnOutput
  {
    FloatsGood(n);
    FloatsShape(n);
    NothingLost(n);
    MetAtOnce(Floats(n), n);
    SwapExchangesModes(Start(n), n.root, n.c, n.y, delayed);
  }
}
