/** Runs in which a workspace ends up with two containers fullscreen on their
  * output, and in which a swap loses a mode. */
module FullscreenRooms {
  import opened Order
  import opened Containers
  import opened Swapping
  import opened Urgency
  import opened FullscreenSearch
  import opened Workspaces
  import opened Activation
  import opened Fullscreen
  import opened SwapWhole
  import opened WindowRuns

  /** The root with an output, its content container and two workspaces on it:
    * `w` with the windows `y` and `c`, and `v` with `x`. */
  datatype Rooms = Rooms(root: Con, output: Con, content: Con, w: Con, v: Con, y: Con, c: Con, x: Con)

  ghost predicate Apart(n: Rooms) {
    && n.root !in {n.output, n.content, n.w, n.v, n.y, n.c, n.x} && n.output !in {n.content, n.w, n.v, n.y, n.c, n.x}
    && n.content !in {n.w, n.v, n.y, n.c, n.x} && n.w !in {n.v, n.y, n.c, n.x} && n.v !in {n.y, n.c, n.x}
    && n.y !in {n.c, n.x} && n.c != n.x
  }

  /** `w` is the visible workspace, and no window is fullscreen. */
  ghost function Furnished(n: Rooms): Forest {
    var e := Fresh(None);
    map[
      n.root := e.(ty := Root, nodes := [n.output], focus := [n.output]),
      n.output := e.(ty := Output, parent := n.root, nodes := [n.content], focus := [n.content]),
      n.content := e.(parent := n.output, nodes := [n.w, n.v], focus := [n.w, n.v]),
      n.w := e.(ty := Workspace, parent := n.content, nodes := [n.y, n.c], focus := [n.y, n.c], fullscreen := OnOutput),
      n.v := e.(ty := Workspace, parent := n.content, nodes := [n.x], focus := [n.x]),
      n.y := e.(parent := n.w), n.c := e.(parent := n.w), n.x := e.(parent := n.v)]
  }

  /** Who is below whom. */
  ghost predicate AreRooms(f: Forest, n: Rooms) {
    && WellFormed(f) && Apart(n) && f.Keys == {n.root, n.output, n.content, n.w, n.v, n.y, n.c, n.x}
    && f[n.root].parent == null && f[n.output].parent == n.root && f[n.content].parent == n.output
    && f[n.w].parent == f[n.v].parent == n.content && f[n.y].parent == f[n.c].parent == n.w && f[n.x].parent == n.v
    && Attached(f, n.output) && Attached(f, n.content) && Attached(f, n.w) && Attached(f, n.v)
    && Attached(f, n.y) && Attached(f, n.c) && Attached(f, n.x)
    && f[n.w].ty == f[n.v].ty == Workspace && f[n.y].ty == f[n.c].ty == f[n.x].ty == Plain
    && f[n.root].ty == Root && f[n.output].ty == Output && f[n.content].ty == Plain
  }

  /** Which windows are fullscreen, and how; nothing else is but a workspace. */
  ghost predicate Modes(f: Forest, n: Rooms, onY: FullscreenMode, onC: FullscreenMode, onX: FullscreenMode)
    requires AreRooms(f, n)
  {
    && f[n.y].fullscreen == onY && f[n.c].fullscreen == onC && f[n.x].fullscreen == onX
    && f[n.root].fullscreen == f[n.output].fullscreen == f[n.content].fullscreen == NotFullscreen
    && f[n.w].fullscreen != Global && f[n.v].fullscreen != Global
  }

  lemma FurnishedEdges(n: Rooms)
    requires Apart(n)
    ensures ListsAgree(Furnished(n)) && ParentsAgree(Furnished(n))
  {
  }

  lemma FurnishedTree(n: Rooms)
    requires Apart(n)
    ensures WellFormed(Furnished(n))
  {
    FurnishedEdges(n);
    var depth: map<Con, nat> := map[n.root := 0, n.output := 1, n.content := 2, n.w := 3, n.v := 3, n.y := 4, n.c := 4,
      n.x := 4];
    assert Ranked(Furnished(n), depth);
  }

  lemma FurnishedRooms(n: Rooms)
    requires Apart(n)
    ensures AreRooms(Furnished(n), n) && Modes(Furnished(n), n, NotFullscreen, NotFullscreen, NotFullscreen)
  {
    FurnishedTree(n);
  }

  /** The state to start from. */
  ghost function Start(n: Rooms): State {
    State(Furnished(n), n.y)
  }

  lemma NothingFloats(f: Forest)
    requires forall z {:trigger f[z]} :: z in f ==> f[z].floats == [] && !f[z].floating && f[z].ty != FloatingCon
    ensures FloatsOnWorkspaces(f) && FloatingHeld(f)
  {
  }

  lemma FurnishedShelves(f: Forest, n: Rooms)
    requires AreRooms(f, n) && f[n.content].nodes == [n.w, n.v]
    ensures WorkspacesShelved(f)
  {
  }

  lemma FurnishedFlat(n: Rooms)
    ensures forall z {:trigger Furnished(n)[z]} :: z in Furnished(n) ==>
              Furnished(n)[z].floats == [] && !Furnished(n)[z].floating && Furnished(n)[z].ty != FloatingCon
  {
  }

  lemma FurnishedRooted(f: Forest, n: Rooms)
    requires AreRooms(f, n)
    ensures Rooted(f)
  {
  }

  lemma FurnishedProper(n: Rooms)
    requires Apart(n)
    ensures Sound(Start(n))
  {
    FurnishedRooms(n);
    FurnishedFlat(n);
    NothingFloats(Furnished(n));
    FurnishedShelves(Furnished(n), n);
    FurnishedRooted(Furnished(n), n);
  }

  /** The same rooms whatever the order of the lists. */
  lemma StillRooms(f: Forest, g: Forest, n: Rooms)
    requires AreRooms(f, n) && SameShape(f, g)
    ensures AreRooms(g, n)
  {
    forall z | z in f ensures g[z].ty == f[z].ty && g[z].parent == f[z].parent && Attached(g, z) == Attached(f, z) {
      assert Attached(g, z) == Attached(f, z);
    }
  }

  lemma RoomsLines(f: Forest, n: Rooms)
    requires AreRooms(f, n)
    ensures Line(f, n.root) == [n.root] && Line(f, n.output) == [n.output, n.root] &&
            Line(f, n.content) == [n.content, n.output, n.root]
    ensures Line(f, n.w) == [n.w, n.content, n.output, n.root] && Line(f, n.v) == [n.v, n.content, n.output, n.root]
    ensures Line(f, n.y) == [n.y, n.w, n.content, n.output, n.root] &&
            Line(f, n.c) == [n.c, n.w, n.content, n.output, n.root]
    ensures Line(f, n.x) == [n.x, n.v, n.content, n.output, n.root]
  {
    assert Line(f, n.output) == [n.output] + Line(f, n.root);
    assert Line(f, n.content) == [n.content] + Line(f, n.output);
    assert Line(f, n.w) == [n.w] + Line(f, n.content) && Line(f, n.v) == [n.v] + Line(f, n.content);
    assert Line(f, n.y) == [n.y] + Line(f, n.w) && Line(f, n.c) == [n.c] + Line(f, n.w) &&
           Line(f, n.x) == [n.x] + Line(f, n.v);
  }

  lemma RoomsWorkspaces(f: Forest, n: Rooms)
    requires AreRooms(f, n)
    ensures WorkspaceOf(f, n.y) == WorkspaceOf(f, n.c) == n.w && WorkspaceOf(f, n.x) == n.v
    ensures Enabling(f, n.y) && Enabling(f, n.c) && Enabling(f, n.x)
  {
    assert WorkspaceOf(f, n.w) == n.w && WorkspaceOf(f, n.v) == n.v;
  }

  lemma RoomsInside(f: Forest, n: Rooms, z: Con)
    requires AreRooms(f, n) && z in f
    ensures StrictlyInside(f, z, n.root) <==> z != n.root
    ensures StrictlyInside(f, z, n.w) <==> z == n.y || z == n.c
    ensures StrictlyInside(f, z, n.v) <==> z == n.x
  {
    RoomsLines(f, n);
  }

  /** What searches from the root and from the workspaces can meet. */
  lemma RoomsHits(f: Forest, n: Rooms, onY: FullscreenMode, onC: FullscreenMode, onX: FullscreenMode, z: Con)
    requires AreRooms(f, n) && Modes(f, n, onY, onC, onX) && z in f
    ensures Hit(f, n.root, Global, z) <==>
            (z == n.y && onY == Global) || (z == n.c && onC == Global) || (z == n.x && onX == Global)
    ensures Hit(f, n.w, OnOutput, z) <==> (z == n.y && onY == OnOutput) || (z == n.c && onC == OnOutput)
    ensures Hit(f, n.v, OnOutput, z) <==> z == n.x && onX == OnOutput
  {
    RoomsInside(f, n, z);
  }

  lemma RoomsGlobal(f: Forest, n: Rooms, onY: FullscreenMode, onX: FullscreenMode)
    requires AreRooms(f, n) && Modes(f, n, onY, NotFullscreen, onX) && onY != Global
    ensures OneGlobal(f, n.root)
    ensures onX == Global <==> !NoHit(f, n.root, Global)
    ensures onX == Global ==> FirstFound(f, n.root, Global) == n.x
  {
    forall z | z in f ensures Hit(f, n.root, Global, z) <==> z == n.x && onX == Global {
      RoomsHits(f, n, onY, NotFullscreen, onX, z);
    }
  }

  /** Enabling one of the windows, with `off` in its way. */
  lemma Enabled(s: State, n: Rooms, z: Con, mode: FullscreenMode, off: Con?, delayed: bool)
    requires Sound(s) && AreRooms(s.tree, n) && z in {n.y, n.c, n.x} && s.tree[z].fullscreen != mode
    requires WorkspaceOf(s.tree, z) != null && off == InTheWay(s.tree, n.root, z)
    ensures var t := Enable(s, n.root, z, mode, delayed);
            Sound(t) && Turns(s.tree, t.tree, off, z, mode) && AreRooms(t.tree, n)
  {
    RoomsWorkspaces(s.tree, n);
    TurnedEffect(s, off, z, mode, delayed);
    StillRooms(s.tree, Enable(s, n.root, z, mode, delayed).tree, n);
  }

  ghost function ModeAfter(u: Con, was: FullscreenMode, off: Con?, z: Con, mode: FullscreenMode): FullscreenMode {
    if u == z then mode else if u == off then NotFullscreen else was
  }

  lemma ModesAfter(f: Forest, g: Forest, n: Rooms, off: Con?, z: Con, mode: FullscreenMode,
                   onY: FullscreenMode, onC: FullscreenMode, onX: FullscreenMode)
    requires AreRooms(f, n) && AreRooms(g, n) && Turns(f, g, off, z, mode) && Modes(f, n, onY, onC, onX)
    requires z in {n.y, n.c, n.x} && (off == null || off in {n.y, n.c, n.x})
    ensures Modes(g, n, ModeAfter(n.y, onY, off, z, mode), ModeAfter(n.c, onC, off, z, mode),
            ModeAfter(n.x, onX, off, z, mode))
  {
  }

  lemma NothingInTheWay(f: Forest, n: Rooms, z: Con, onY: FullscreenMode)
    requires AreRooms(f, n) && Modes(f, n, onY, NotFullscreen, NotFullscreen) && onY != Global
    requires z == n.x || (z == n.y && onY == NotFullscreen)
    ensures Enabling(f, z) && InTheWay(f, n.root, z) == null
  {
    RoomsWorkspaces(f, n);
    RoomsGlobal(f, n, onY, NotFullscreen);
    forall u | u in f ensures !Hit(f, WorkspaceOf(f, z), OnOutput, u) {
      RoomsHits(f, n, onY, NotFullscreen, NotFullscreen, u);
    }
  }

  lemma FirstEnable(s: State, n: Rooms, delayed: bool)
    requires Sound(s) && AreRooms(s.tree, n) && Modes(s.tree, n, NotFullscreen, NotFullscreen, NotFullscreen)
    ensures WorkspaceOf(s.tree, n.y) != null
    ensures var t := Enable(s, n.root, n.y, OnOutput, delayed);
            AreRooms(t.tree, n) && Modes(t.tree, n, OnOutput, NotFullscreen, NotFullscreen)
  {
    NothingInTheWay(s.tree, n, n.y, NotFullscreen);
    Enabled(s, n, n.y, OnOutput, null, delayed);
    ModesAfter(s.tree, Enable(s, n.root, n.y, OnOutput, delayed).tree, n, null, n.y, OnOutput, NotFullscreen,
      NotFullscreen, NotFullscreen);
  }

  lemma SecondEnable(s: State, n: Rooms, delayed: bool)
    requires Sound(s) && AreRooms(s.tree, n) && Modes(s.tree, n, OnOutput, NotFullscreen, NotFullscreen)
    ensures WorkspaceOf(s.tree, n.x) != null
    ensures var t := Enable(s, n.root, n.x, Global, delayed);
            AreRooms(t.tree, n) && Modes(t.tree, n, OnOutput, NotFullscreen, Global)
  {
    NothingInTheWay(s.tree, n, n.x, OnOutput);
    Enabled(s, n, n.x, Global, null, delayed);
    ModesAfter(s.tree, Enable(s, n.root, n.x, Global, delayed).tree, n, null, n.x, Global, OnOutput, NotFullscreen,
      NotFullscreen);
  }

  lemma ThirdEnable(s: State, n: Rooms, delayed: bool)
    requires Sound(s) && AreRooms(s.tree, n) && Modes(s.tree, n, OnOutput, NotFullscreen, Global)
    ensures WorkspaceOf(s.tree, n.c) != null
    ensures var t := Enable(s, n.root, n.c, OnOutput, delayed);
            AreRooms(t.tree, n) && Modes(t.tree, n, OnOutput, OnOutput, NotFullscreen)
  {
    RoomsWorkspaces(s.tree, n);
    RoomsGlobal(s.tree, n, OnOutput, Global);
    Enabled(s, n, n.c, OnOutput, n.x, delayed);
    ModesAfter(s.tree, Enable(s, n.root, n.c, OnOutput, delayed).tree, n, n.x, n.c, OnOutput, OnOutput, NotFullscreen,
      Global);
  }

  lemma TwoFullscreen(f: Forest, n: Rooms)
    requires AreRooms(f, n) && Modes(f, n, OnOutput, OnOutput, NotFullscreen)
    ensures WorkspaceOf(f, n.c) == n.w && !AtMostOne(f, n.w, OnOutput)
  {
    RoomsWorkspaces(f, n);
    RoomsHits(f, n, OnOutput, OnOutput, NotFullscreen, n.y);
    RoomsHits(f, n, OnOutput, OnOutput, NotFullscreen, n.c);
  }

  /** A good state of the rooms with these modes. */
  ghost predicate Standing(s: State, n: Rooms, onY: FullscreenMode, onC: FullscreenMode, onX: FullscreenMode) {
    Good(s, n.root) && AreRooms(s.tree, n) && Modes(s.tree, n, onY, onC, onX)
  }

  lemma StartStands(n: Rooms)
    requires Apart(n)
    ensures Standing(Start(n), n, NotFullscreen, NotFullscreen, NotFullscreen)
  {
    FurnishedRooms(n);
    FurnishedProper(n);
    RoomsGlobal(Furnished(n), n, NotFullscreen, NotFullscreen);
  }

  lemma EnableStands(s: State, t: State, n: Rooms, z: Con, mode: FullscreenMode,
                     onY: FullscreenMode, onC: FullscreenMode, onX: FullscreenMode, delayed: bool)
    requires Good(s, n.root) && mode != NotFullscreen && z in s.tree && WorkspaceOf(s.tree, z) != null
    requires t == Enable(s, n.root, z, mode, delayed) && AreRooms(t.tree, n) && Modes(t.tree, n, onY, onC, onX)
    ensures Standing(t, n, onY, onC, onX) && Call(n.root, ToEnable(z, mode), delayed)(s, t)
  {
    EnableSteps(s, n.root, z, mode, delayed);
  }

  lemma OneEnabled(n: Rooms, s: State, delayed: bool) returns (t: State)
    requires Standing(s, n, NotFullscreen, NotFullscreen, NotFullscreen)
    ensures Standing(t, n, OnOutput, NotFullscreen, NotFullscreen) &&
            Call(n.root, ToEnable(n.y, OnOutput), delayed)(s, t)
  {
    FirstEnable(s, n, delayed);
    t := Enable(s, n.root, n.y, OnOutput, delayed);
    EnableStands(s, t, n, n.y, OnOutput, OnOutput, NotFullscreen, NotFullscreen, delayed);
  }

  lemma TwoEnabled(n: Rooms, s: State, delayed: bool) returns (t: State)
    requires Standing(s, n, OnOutput, NotFullscreen, NotFullscreen)
    ensures Standing(t, n, OnOutput, NotFullscreen, Global) && Call(n.root, ToEnable(n.x, Global), delayed)(s, t)
  {
    SecondEnable(s, n, delayed);
    t := Enable(s, n.root, n.x, Global, delayed);
    EnableStands(s, t, n, n.x, Global, OnOutput, NotFullscreen, Global, delayed);
  }

  lemma ThreeEnabled(n: Rooms, s: State, delayed: bool) returns (t: State)
    requires Standing(s, n, OnOutput, NotFullscreen, Global)
    ensures Standing(t, n, OnOutput, OnOutput, NotFullscreen) && Call(n.root, ToEnable(n.c, OnOutput), delayed)(s, t)
  {
    ThirdEnable(s, n, delayed);
    t := Enable(s, n.root, n.c, OnOutput, delayed);
    EnableStands(s, t, n, n.c, OnOutput, OnOutput, OnOutput, NotFullscreen, delayed);
  }

  lemma RunOfThree(s: State, s1: State, s2: State, s3: State, a: Action, a1: Action, a2: Action, root: Con,
                   delayed: bool)
    requires Call(root, a, delayed)(s, s1) && Call(root, a1, delayed)(s1, s2) && Call(root, a2, delayed)(s2, s3)
    ensures IsRun([s, s1, s2, s3], [a, a1, a2], root, delayed)
  {
    var states, actions := [s, s1, s2, s3], [a, a1, a2];
    forall k {:trigger actions[k]} | 0 <= k < 3 ensures Call(root, actions[k], delayed)(states[k], states[k + 1]) {
      if k == 0 {
        assert actions[k] == a;
      } else if k == 1 {
        assert actions[k] == a1;
      } else {
        assert actions[k] == a2;
      }
    }
  }

  /** From a tree with no window fullscreen: `y` is enabled on its output, `x` on
    * another workspace globally, `c` beside `y` on its output.  Only `x` is
    * turned off, and the workspace has two. */
  lemma TwoOnOneOutput(n: Rooms, delayed: bool) returns (s1: State, s2: State, t: State)
    requires Apart(n)
    ensures Standing(Start(n), n, NotFullscreen, NotFullscreen, NotFullscreen)
    ensures IsRun([Start(n), s1, s2, t], [ToEnable(n.y, OnOutput), ToEnable(n.x, Global), ToEnable(n.c, OnOutput)],
            n.root, delayed)
    ensures Standing(t, n, OnOutput, OnOutput, NotFullscreen)
    ensures WorkspaceOf(t.tree, n.c) == n.w && !AtMostOne(t.tree, n.w, OnOutput)
  {
    StartStands(n);
    s1 := OneEnabled(n, Start(n), delayed);
    s2 := TwoEnabled(n, s1, delayed);
    t := ThreeEnabled(n, s2, delayed);
    RunOfThree(Start(n), s1, s2, t, ToEnable(n.y, OnOutput), ToEnable(n.x, Global), ToEnable(n.c, OnOutput), n.root,
      delayed);
    TwoFullscreen(t.tree, n);
  }

  lemma RoomsSwappable(s: State, n: Rooms)
    requires Sound(s) && AreRooms(s.tree, n)
    ensures Swappable(s, n.root, n.x, n.y)
  {
    RoomsWorkspaces(s.tree, n);
    RoomsLines(s.tree, n);
  }

  lemma SwapLosesIn(s: State, n: Rooms, delayed: bool)
    requires Good(s, n.root) && AreRooms(s.tree, n) && Modes(s.tree, n, OnOutput, NotFullscreen, Global)
    ensures Swappable(s, n.root, n.x, n.y)
    ensures var t := SwapEntirely(s, n.root, n.x, n.y, delayed).tree;
            && n.x in t && n.y in t && t[n.x].fullscreen == OnOutput && t[n.y].fullscreen == NotFullscreen
  {
    RoomsSwappable(s, n);
    SwapExchangesModes(s, n.root, n.x, n.y, delayed);
    TradedReady(s, n.root, n.x, n.y);
    var g := Traded(s, n.x, n.y).tree;
    assert g[n.x].fullscreen == Global && g[n.y].fullscreen == OnOutput;
  }

  lemma RoomsSwap(n: Rooms, s: State, delayed: bool) returns (t: State)
    requires Standing(s, n, OnOutput, NotFullscreen, Global)
    ensures CanSwap(s.tree, n.x, n.y) && Call(n.root, ToSwap(n.x, n.y), delayed)(s, t)
    ensures n.x in t.tree && n.y in t.tree && t.tree[n.x].fullscreen == OnOutput &&
            t.tree[n.y].fullscreen == NotFullscreen
  {
    SwapLosesIn(s, n, delayed);
    t := SwapEntirely(s, n.root, n.x, n.y, delayed);
    SwapSteps(s, n.root, n.x, n.y, delayed);
  }

  /** After the first two calls, swapping the global `x` with `y` leaves neither
    * of them global: enabling `x` on its new output turns `y` off again. */
  lemma SwapLosesGlobal(n: Rooms, delayed: bool) returns (s1: State, s2: State, t: State)
    requires Apart(n)
    ensures IsRun([Start(n), s1, s2, t], [ToEnable(n.y, OnOutput), ToEnable(n.x, Global), ToSwap(n.x, n.y)], n.root,
            delayed)
    ensures Standing(s2, n, OnOutput, NotFullscreen, Global) && CanSwap(s2.tree, n.x, n.y)
    ensures n.x in t.tree && n.y in t.tree && t.tree[n.x].fullscreen == OnOutput &&
            t.tree[n.y].fullscreen == NotFullscreen
  {
    StartStands(n);
    s1 := OneEnabled(n, Start(n), delayed);
    s2 := TwoEnabled(n, s1, delayed);
    t := RoomsSwap(n, s2, delayed);
    RunOfThree(Start(n), s1, s2, t, ToEnable(n.y, OnOutput), ToEnable(n.x, Global), ToSwap(n.x, n.y), n.root, delayed);
  }
}
