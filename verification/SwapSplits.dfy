/** Two swaps that leave a flag wrong: the hint that should go up with the urgent
  * split is ignored, because the split has the focus. */
module SwapSplits {
  import opened Order
  import opened Containers
  import opened Swapping
  import opened Urgency
  import opened SwapFocus
  import opened Workspaces

  /** The root with an output, its content container, and two splits on the
    * workspaces `w` and `v`, which may be one: `a`, flagged for its urgent leaf
    * `u`, and `s`, with the calm leaf `b`. */
  datatype Splits = Splits(root: Con, output: Con, content: Con, w: Con, v: Con, a: Con, u: Con, s: Con, b: Con)

  ghost predicate Apart(n: Splits) {
    && n.root !in {n.output, n.content, n.w, n.v, n.a, n.u, n.s, n.b} &&
       n.output !in {n.content, n.w, n.v, n.a, n.u, n.s, n.b}
    && n.content !in {n.w, n.v, n.a, n.u, n.s, n.b} && n.w !in {n.a, n.u, n.s, n.b} && n.v !in {n.a, n.u, n.s, n.b}
    && n.a !in {n.u, n.s, n.b} && n.u !in {n.s, n.b} && n.s != n.b
  }

  /** What the two trees below share. */
  ghost predicate AreSplits(f: Forest, n: Splits) {
    && WellFormed(f) && Apart(n) && f.Keys == {n.root, n.output, n.content, n.w, n.v, n.a, n.u, n.s, n.b}
    && f[n.root].parent == null && f[n.output].parent == n.root && f[n.content].parent == n.output
    && f[n.w].parent == f[n.v].parent == n.content
    && f[n.a].parent == n.w && f[n.u].parent == n.a && f[n.s].parent == n.v && f[n.b].parent == n.s
    && Attached(f, n.output) && Attached(f, n.content) && Attached(f, n.w) && Attached(f, n.v)
    && Attached(f, n.a) && Attached(f, n.u) && Attached(f, n.s) && Attached(f, n.b)
    && f[n.a].nodes == [n.u] && f[n.s].nodes == [n.b] && f[n.u].nodes == f[n.b].nodes == []
    && f[n.w].ty == f[n.v].ty == Workspace && f[n.root].ty == Root && f[n.output].ty == Output
    && f[n.content].ty == f[n.a].ty == f[n.u].ty == f[n.s].ty == f[n.b].ty == Plain
    && f[n.a].urgent && f[n.u].urgent && !f[n.s].urgent && !f[n.b].urgent
  }

  /** On one workspace. */
  ghost function OneWorkspace(n: Splits): Forest {
    var e := Fresh(None);
    map[
      n.root := e.(ty := Root, nodes := [n.output], focus := [n.output]),
      n.output := e.(ty := Output, parent := n.root, nodes := [n.content], focus := [n.content]),
      n.content := e.(parent := n.output, nodes := [n.w], focus := [n.w]),
      n.w := e.(ty := Workspace, parent := n.content, nodes := [n.a, n.s], focus := [n.a, n.s], urgent := true),
      n.a := e.(parent := n.w, nodes := [n.u], focus := [n.u], urgent := true),
      n.u := e.(parent := n.a, urgent := true),
      n.s := e.(parent := n.w, nodes := [n.b], focus := [n.b]),
      n.b := e.(parent := n.s)]
  }

  /** On two. */
  ghost function TwoWorkspaces(n: Splits): Forest {
    var e := Fresh(None);
    map[
      n.root := e.(ty := Root, nodes := [n.output], focus := [n.output]),
      n.output := e.(ty := Output, parent := n.root, nodes := [n.content], focus := [n.content]),
      n.content := e.(parent := n.output, nodes := [n.w, n.v], focus := [n.v, n.w]),
      n.w := e.(ty := Workspace, parent := n.content, nodes := [n.a], focus := [n.a], urgent := true),
      n.v := e.(ty := Workspace, parent := n.content, nodes := [n.s], focus := [n.s]),
      n.a := e.(parent := n.w, nodes := [n.u], focus := [n.u], urgent := true),
      n.u := e.(parent := n.a, urgent := true),
      n.s := e.(parent := n.v, nodes := [n.b], focus := [n.b]),
      n.b := e.(parent := n.s)]
  }

  ghost function SplitsDepth(n: Splits): map<Con, nat> {
    map[n.root := 0, n.output := 1, n.content := 2, n.w := 3, n.v := 3, n.a := 4, n.s := 4, n.u := 5, n.b := 5]
  }

  lemma OneWorkspaceLists(n: Splits)
    requires Apart(n) && n.w == n.v
    ensures ListsAgree(OneWorkspace(n))
  {
  }

  lemma OneWorkspaceEdges(n: Splits)
    requires Apart(n) && n.w == n.v
    ensures ParentsAgree(OneWorkspace(n))
  {
  }

  lemma OneWorkspaceDepth(n: Splits)
    requires Apart(n) && n.w == n.v
    ensures Ranked(OneWorkspace(n), SplitsDepth(n))
  {
  }

  lemma OneWorkspaceTree(n: Splits)
    requires Apart(n) && n.w == n.v
    ensures WellFormed(OneWorkspace(n))
  {
    OneWorkspaceLists(n);
    OneWorkspaceEdges(n);
    OneWorkspaceDepth(n);
  }

  lemma OneWorkspaceSplits(n: Splits)
    requires Apart(n) && n.w == n.v
    ensures AreSplits(OneWorkspace(n), n)
  {
    OneWorkspaceTree(n);
  }

  lemma OneWorkspaceFlat(n: Splits)
    ensures FloatsOnWorkspaces(OneWorkspace(n))
  {
  }

  lemma TwoWorkspacesLists(n: Splits)
    requires Apart(n) && n.w != n.v
    ensures ListsAgree(TwoWorkspaces(n))
  {
  }

  lemma TwoWorkspacesEdges(n: Splits)
    requires Apart(n) && n.w != n.v
    ensures ParentsAgree(TwoWorkspaces(n))
  {
  }

  lemma TwoWorkspacesDepth(n: Splits)
    requires Apart(n) && n.w != n.v
    ensures Ranked(TwoWorkspaces(n), SplitsDepth(n))
  {
  }

  lemma TwoWorkspacesTree(n: Splits)
    requires Apart(n) && n.w != n.v
    ensures WellFormed(TwoWorkspaces(n))
  {
    TwoWorkspacesLists(n);
    TwoWorkspacesEdges(n);
    TwoWorkspacesDepth(n);
  }

  lemma TwoWorkspacesSplits(n: Splits)
    requires Apart(n) && n.w != n.v
    ensures AreSplits(TwoWorkspaces(n), n)
  {
    TwoWorkspacesTree(n);
  }

  lemma TwoWorkspacesFlat(n: Splits)
    ensures FloatsOnWorkspaces(TwoWorkspaces(n))
  {
  }

  lemma UpperLines(f: Forest, n: Splits)
    requires AreSplits(f, n)
    ensures Line(f, n.root) == [n.root] && Line(f, n.output) == [n.output, n.root] &&
            Line(f, n.content) == [n.content, n.output, n.root]
    ensures Line(f, n.w) == [n.w, n.content, n.output, n.root] && Line(f, n.v) == [n.v, n.content, n.output, n.root]
  {
    assert Line(f, n.output) == [n.output] + Line(f, n.root);
    assert Line(f, n.content) == [n.content] + Line(f, n.output);
    assert Line(f, n.w) == [n.w] + Line(f, n.content) && Line(f, n.v) == [n.v] + Line(f, n.content);
  }

  lemma SplitsLines(f: Forest, n: Splits)
    requires AreSplits(f, n)
    ensures Line(f, n.a) == [n.a, n.w, n.content, n.output, n.root] &&
            Line(f, n.s) == [n.s, n.v, n.content, n.output, n.root]
    ensures Line(f, n.u) == [n.u, n.a, n.w, n.content, n.output, n.root]
    ensures Line(f, n.b) == [n.b, n.s, n.v, n.content, n.output, n.root]
  {
    UpperLines(f, n);
    assert Line(f, n.a) == [n.a] + Line(f, n.w) && Line(f, n.s) == [n.s] + Line(f, n.v);
    assert Line(f, n.u) == [n.u] + Line(f, n.a) && Line(f, n.b) == [n.b] + Line(f, n.s);
  }

  lemma SplitsWorkspaces(f: Forest, n: Splits)
    requires AreSplits(f, n)
    ensures WorkspaceOf(f, n.a) == n.w && WorkspaceOf(f, n.b) == n.v
  {
    assert WorkspaceOf(f, n.w) == n.w && WorkspaceOf(f, n.s) == WorkspaceOf(f, n.v) == n.v;
  }

  lemma UpperUntracked(f: Forest, n: Splits)
    requires AreSplits(f, n)
    ensures !Tracked(f, n.root) && !Tracked(f, n.output) && !Tracked(f, n.content) && !Tracked(f, n.w) &&
            !Tracked(f, n.v)
  {
    UpperLines(f, n);
    assert Boundary(f[n.w]) && Boundary(f[n.v]);
    assert Inside(f, n.w, n.root) && Inside(f, n.w, n.output) && Inside(f, n.w, n.content) && Inside(f, n.w, n.w) &&
           Inside(f, n.v, n.v);
  }

  lemma InsideFlagged(f: Forest, n: Splits, x: Con)
    requires AreSplits(f, n) && x in f
    ensures Inside(f, x, n.a) <==> x == n.a || x == n.u
  {
    UpperLines(f, n);
    SplitsLines(f, n);
  }

  lemma InsideCalm(f: Forest, n: Splits, x: Con)
    requires AreSplits(f, n) && x in f
    ensures Inside(f, x, n.s) <==> x == n.s || x == n.b
    ensures Inside(f, x, n.b) <==> x == n.b
  {
    UpperLines(f, n);
    SplitsLines(f, n);
  }

  lemma SplitsInside(f: Forest, n: Splits, x: Con)
    requires AreSplits(f, n) && x in f
    ensures Inside(f, x, n.a) <==> x == n.a || x == n.u
    ensures Inside(f, x, n.s) <==> x == n.s || x == n.b
    ensures Inside(f, x, n.b) <==> x == n.b
  {
    InsideFlagged(f, n, x);
    InsideCalm(f, n, x);
  }

  lemma SplitsTracked(f: Forest, n: Splits)
    requires AreSplits(f, n)
    ensures Tracked(f, n.a) && Tracked(f, n.s) && Tracked(f, n.b)
  {
    forall x | x in f && (Inside(f, x, n.a) || Inside(f, x, n.s) || Inside(f, x, n.b)) ensures !Boundary(f[x]) {
      SplitsInside(f, n, x);
    }
  }

  lemma SplitsUrgent(f: Forest, n: Splits)
    requires AreSplits(f, n)
    ensures UrgentUnder(f, n.a) && !UrgentUnder(f, n.s)
  {
    SplitsInside(f, n, n.u);
    assert UrgentLeaf(f, n.u) && Inside(f, n.u, n.a);
    forall l | l in f && Inside(f, l, n.s) ensures !UrgentLeaf(f, l) {
      SplitsInside(f, n, l);
    }
  }

  lemma SplitsFlag(f: Forest, n: Splits, q: Con)
    requires AreSplits(f, n) && q in f
    ensures FlagExact(f, q)
  {
    if q == n.a || q == n.s {
      SplitsUrgent(f, n);
    } else if q != n.u && q != n.b {
      UpperUntracked(f, n);
    }
  }

  lemma SplitsExact(f: Forest, n: Splits)
    requires AreSplits(f, n)
    ensures Exact(f)
  {
    forall q | q in f ensures FlagExact(f, q) {
      SplitsFlag(f, n, q);
    }
  }

  lemma SplitsSwap(f: Forest, n: Splits)
    requires AreSplits(f, n)
    ensures CanSwap(f, n.a, n.b)
  {
    SplitsInside(f, n, n.a);
    SplitsInside(f, n, n.b);
  }

  lemma SplitsFocus(f: Forest, focused: Con, n: Splits)
    requires AreSplits(f, n) && focused == if n.w == n.v then n.a else n.b
    ensures NewFocus(f, focused, n.a, n.b) == n.a && !Arrives(f, n.a, n.a, n.b)
  {
    SplitsInside(f, n, n.b);
    SplitsWorkspaces(f, n);
    SplitsTracked(f, n);
    assert StrictlyInside(f, n.b, n.s) && Tracked(f, n.s) && !f[n.s].urgent;
  }

  /** Whenever `a` ends up with the focus, `s` is left unflagged above the urgent
    * leaf: the hint that should have gone up is ignored as being for the focused
    * container. */
  lemma SplitsFail(f: Forest, focused: Con, n: Splits)
    requires AreSplits(f, n) && FloatsOnWorkspaces(f) && focused == if n.w == n.v then n.a else n.b
    ensures CanSwap(f, n.a, n.b) && Exact(f) && Tracked(f, n.a) && Tracked(f, n.b)
    ensures WellFormed(SwapFully(f, focused, n.a, n.b)) && !Exact(SwapFully(f, focused, n.a, n.b))
  {
    SplitsSwap(f, n);
    SplitsExact(f, n);
    SplitsTracked(f, n);
    SplitsFocus(f, focused, n);
    SwapFlags(f, focused, n.a, n.b);
  }

  /** On one workspace, with the focus on the urgent split `a` itself. */
  lemma SwapFlagsCanFail(n: Splits)
    requires Apart(n) && n.w == n.v
    ensures var f := OneWorkspace(n);
            && CanSwap(f, n.a, n.b) && FloatsOnWorkspaces(f) && Exact(f) && Tracked(f, n.a) && Tracked(f, n.b)
            && WellFormed(SwapFully(f, n.a, n.a, n.b)) && !Exact(SwapFully(f, n.a, n.a, n.b))
  {
    OneWorkspaceSplits(n);
    OneWorkspaceFlat(n);
    SplitsFail(OneWorkspace(n), n.a, n);
  }

  /** Across workspaces, with the focus on the calm window `b`: the focus moves to
    * `a`, which comes to its place. */
  lemma SwapFlagsCanFailAcross(n: Splits)
    requires Apart(n) && n.w != n.v
    ensures var f := TwoWorkspaces(n);
            && CanSwap(f, n.a, n.b) && FloatsOnWorkspaces(f) && Exact(f) && Tracked(f, n.a) && Tracked(f, n.b)
            && WellFormed(SwapFully(f, n.b, n.a, n.b)) && !Exact(SwapFully(f, n.b, n.a, n.b))
  {
    TwoWorkspacesSplits(n);
    TwoWorkspacesFlat(n);
    SplitsFail(TwoWorkspaces(n), n.b, n);
  }
}
