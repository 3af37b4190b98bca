/** get_focus_order, set_focus_order and the workspace branch of con_set_layout
  * on the heap. */
module WrapOps {
  import opened Order
  import opened Containers
  import opened ContainerOps
  import opened Encapsulation
  import opened Floating
  import opened WrapSteps

  /** get_focus_order */
  method GetFocusOrder(con: Con) returns (order: seq<Con>)
    ensures order == con.focus
  {
    order := [];
    var idx := 0;
    while idx < |con.focus|
      invariant idx <= |con.focus| && order == con.focus[..idx]
    {
      order := order + [con.focus[idx]];
      idx := idx + 1;
    }
  }

  /** `path` is the way up from `c`, and says whether `c` is inside a floating
    * container. */
  ghost predicate WayUp(path: seq<Con>, c: Con, floating: bool)
    reads path`ty, path`floating, path`parent
  {
    && path != [] && Climbing(path, c)
    && (FoundAt(path[|path| - 1]) != null <==> floating)
  }

  /** The first loop of set_focus_order. */
  method ClearFocus(con: Con) returns (heads: nat)
    modifies con`focus
    ensures con.focus == [] && heads == |old(con.focus)|
  {
    heads := 0;
    while con.focus != []
      invariant heads + |con.focus| == |old(con.focus)|
      decreases |con.focus|
    {
      con.focus := con.focus[1..];
      heads := heads + 1;
    }
  }

  ghost function On(paths: seq<seq<Con>>): set<Con> {
    set i, j | 0 <= i < |paths| && 0 <= j < |paths[i]| :: paths[i][j]
  }

  /** `skip` holds the entries inside a floating container. */
  ghost predicate Ways(order: seq<Con>, skip: seq<Con>, paths: seq<seq<Con>>)
    reads On(paths)`ty, On(paths)`floating, On(paths)`parent
  {
    && |paths| == |order|
    && (forall i {:trigger paths[i]} :: 0 <= i < |order| ==> WayUp(paths[i], order[i], order[i] in skip))
  }

  method IsSkipped(con: Con, order: seq<Con>, idx: nat, ghost skip: seq<Con>, ghost paths: seq<seq<Con>>)
    returns (r: bool)
    requires idx < |order| && Ways(order, skip, paths)
    ensures r <==> con.ty != Workspace && order[idx] in skip
  {
    r := false;
    if con.ty != Workspace {
      assert WayUp(paths[idx], order[idx], order[idx] in skip);
      var floating := ConInsideFloating(order[idx], paths[idx]);
      r := floating != null;
    }
  }

  /** What the second loop has put back, and what is left for it. */
  ghost predicate Refilling(goal: seq<Con>, done: seq<Con>, rest: seq<Con>, skipped: seq<Con>, left: int) {
    left >= 0 && Refill(rest, skipped, left).Some? && goal == done + Refill(rest, skipped, left).value
  }

  lemma RefillNext(goal: seq<Con>, done: seq<Con>, rest: seq<Con>, skipped: seq<Con>, left: int)
    requires Refilling(goal, done, rest, skipped, left) && left > 0
    ensures rest != []
    ensures if rest[0] in skipped then Refilling(goal, done, rest[1..], skipped, left)
            else Refilling(goal, done + [rest[0]], rest[1..], skipped, left - 1)
  {
  }

  /** The second loop, whose bound grows with every entry it skips. */
  method RefillFocus(con: Con, order: seq<Con>, heads: nat, ghost skip: seq<Con>, ghost paths: seq<seq<Con>>)
    requires Ways(order, skip, paths) && con.focus == []
    requires Refill(order, if con.ty == Workspace then [] else skip, heads).Some?
    modifies con`focus
    ensures Refill(order, if con.ty == Workspace then [] else skip, heads) == Some(con.focus)
  {
    ghost var skipped := if con.ty == Workspace then [] else skip;
    ghost var goal := Refill(order, skipped, heads).value;
    var bound, idx := heads, 0;
    while idx < bound
      invariant idx <= bound && idx <= |order|
      invariant Ways(order, skip, paths)
      invariant Refilling(goal, con.focus, order[idx..], skipped, bound - idx)
      decreases |order| - idx
    {
      RefillNext(goal, con.focus, order[idx..], skipped, bound - idx);
      assert order[idx..][1..] == order[idx + 1..];
      var insideFloating := IsSkipped(con, order, idx, skip, paths);
      if insideFloating {
        bound := bound + 1;
      } else {
        con.focus := con.focus + [order[idx]];
      }
      idx := idx + 1;
    }
    assert con.focus + [] == con.focus;
  }

  /** set_focus_order: reads inside the saved array as long as enough entries
    * are not inside a floating container, and puts back the first of those. */
  method SetFocusOrder(con: Con, order: seq<Con>, ghost skip: seq<Con>, ghost paths: seq<seq<Con>>)
    requires Ways(order, skip, paths)
    requires |con.focus| <= |Skipping(order, if con.ty == Workspace then [] else skip)|
    modifies con`focus
    ensures con.focus == Skipping(order, if con.ty == Workspace then [] else skip)[..|old(con.focus)|]
  {
    RefillExact(order, if con.ty == Workspace then [] else skip, |con.focus|);
    var heads := ClearFocus(con);
    RefillFocus(con, order, heads, skip, paths);
  }

  // ---------------------------------------------------------------- con_set_layout

  /** A workspace with tiling children, none of which claims to float. */
  ghost predicate CanEncapsulate(f: Forest, ws: Con) {
    && WellFormed(f) && ws in f && f[ws].ty == Workspace && f[ws].nodes != [] && !f[ws].floating
    && (forall c :: c in f[ws].nodes ==> c in f && f[c].ty != Workspace && f[c].ty != FloatingCon && !f[c].floating)
  }

  /** con_new, and the fields set on the new split. */
  method MakeSplit(ws: Con, layout: Layout) returns (split: Con)
    ensures fresh(split)
    ensures Snapshot(split) == Fresh(None).(parent := ws, layout := layout, lastSplitLayout := ws.lastSplitLayout)
  {
    split := new Con(None);
    split.parent := ws;
    split.layout := layout;
    split.lastSplitLayout := ws.lastSplitLayout;
  }

  method NoteSplitLayout(ws: Con, ghost cons: set<Con>)
    requires ws in cons
    modifies ws`lastSplitLayout
    ensures View(cons) == old(View(cons))[ws := old(Snapshot(ws)).(lastSplitLayout := SplitLayout(old(Snapshot(ws))))]
  {
    ghost var g: Forest := View(cons)[ws := Snapshot(ws).(lastSplitLayout := SplitLayout(Snapshot(ws)))];
    if ws.layout == SplitH || ws.layout == SplitV {
      ws.lastSplitLayout := ws.layout;
    }
    ShowView(cons, g);
  }

  /** `k` children have moved. */
  ghost predicate Moving(cons: set<Con>, f: Forest, ws: Con, split: Con, layout: Layout, k: nat)
    reads cons
  {
    && CanMove(f, ws, split) && k <= |f[ws].nodes| && ws in cons && split in cons
    && View(cons) == Partly(f, ws, split, layout, k) && WellFormed(View(cons))
    && ws.nodes == f[ws].nodes[k..]
  }

  lemma StartMoving(cons: set<Con>, f: Forest, ws: Con, split: Con, layout: Layout, k: nat)
    requires CanMove(f, ws, split) && k <= |f[ws].nodes| && ws in cons
    requires View(cons) == Partly(f, ws, split, layout, k) && WellFormed(View(cons))
    ensures Moving(cons, f, ws, split, layout, k)
  {
    var g := Partly(f, ws, split, layout, k);
    assert split in g.Keys && g.Keys == cons;
    assert View(cons)[ws] == Snapshot(ws) && g[ws] == WsNode(f[ws], k);
  }

  lemma BeginMoving(cons: set<Con>, f: Forest, ws: Con, split: Con, layout: Layout)
    requires CanMove(f, ws, split) && ws in cons
    requires View(cons) == f[ws := f[ws].(lastSplitLayout := SplitLayout(f[ws]))][split := NewSplit(f, ws, layout)]
    ensures Moving(cons, f, ws, split, layout, 0)
  {
    PartlyStart(f, ws, split, layout);
    StartMoving(cons, f, ws, split, layout, 0);
  }

  method BeginWrap(ws: Con, layout: Layout, ghost cons: set<Con>) returns (split: Con)
    requires ws in cons && CanEncapsulate(View(cons), ws)
    modifies ws`lastSplitLayout
    ensures fresh(split) && Moving(cons + {split}, old(View(cons)), ws, split, layout, 0)
  {
    ghost var f := View(cons);
    NoteSplitLayout(ws, cons);
    ghost var g := View(cons);
    split := MakeSplit(ws, layout);
    ShowView(cons + {split}, g[split := NewSplit(f, ws, layout)]);
    BeginMoving(cons + {split}, f, ws, split, layout);
  }

  lemma NextChild(cons: set<Con>, f: Forest, ws: Con, split: Con, layout: Layout, k: nat)
    requires Moving(cons, f, ws, split, layout, k) && ws.nodes != []
    ensures k < |f[ws].nodes| && ws.nodes[0] == f[ws].nodes[k] && ws.nodes[0] in cons
    ensures ws.nodes[0].parent == ws && Attached(View(cons), ws.nodes[0]) &&
            View(cons)[ws.nodes[0]].ty == f[ws.nodes[0]].ty
  {
    PartlyDetach(f, ws, split, layout, k);
    assert EdgeAgrees(View(cons), ws, ws.nodes[0]) by {
      assert View(cons)[ws] == Snapshot(ws) && OwnLists(Snapshot(ws));
    }
    assert View(cons)[ws.nodes[0]] == Snapshot(ws.nodes[0]);
  }

  /** One round of the moving loop. */
  method MoveFirst(ws: Con, split: Con, layout: Layout, ghost cons: set<Con>, ghost f: Forest, ghost k: nat)
    requires Moving(cons, f, ws, split, layout, k) && ws.nodes != []
    modifies ws, split, ws.nodes[0]
    ensures Moving(cons, f, ws, split, layout, k + 1)
  {
    NextChild(cons, f, ws, split, layout, k);
    PartlyStep(f, ws, split, layout, k);
    var child := ws.nodes[0];
    ConDetach(child, cons);
    ConAttach(child, split, null, true, cons);
    StartMoving(cons, f, ws, split, layout, k + 1);
  }

  /** The moving loop. */
  method MoveAll(ws: Con, split: Con, layout: Layout, ghost cons: set<Con>, ghost f: Forest)
    requires Moving(cons, f, ws, split, layout, 0)
    modifies ws, split, f[ws].nodes
    ensures Moving(cons, f, ws, split, layout, |f[ws].nodes|)
  {
    ghost var k := 0;
    while ws.nodes != []
      invariant k <= |f[ws].nodes| && Moving(cons, f, ws, split, layout, k)
      decreases |f[ws].nodes| - k
    {
      assert ws.nodes[0] == f[ws].nodes[k];
      MoveFirst(ws, split, layout, cons, f, k);
      k := k + 1;
    }
  }

  /** The ways up from the saved entries: floating ones stop at once, the others
    * climb through the new split to the workspace. */
  ghost function SavedPaths(f: Forest, ws: Con, split: Con): seq<seq<Con>>
    requires ws in f
  {
    seq(|f[ws].focus|, i requires 0 <= i < |f[ws].focus| =>
      var x := f[ws].focus[i];
      if x in f && x in f[ws].nodes && f[x].ty != Output then [x, split, ws] else [x])
  }

  /** After the move a tiling child's way leads through the split. */
  lemma MovedFields(f: Forest, ws: Con, n: Con, layout: Layout, x: Con)
    requires CanEncapsulate(f, ws) && CanMove(f, ws, n) && x in f[ws].focus
    ensures var g := Partly(f, ws, n, layout, |f[ws].nodes|);
            && x in f && g[x].ty == f[x].ty && g[x].floating == f[x].floating
            && (if x in f[ws].nodes then
                  g[x].parent == n && !f[x].floating && f[x].ty != Workspace && x !in f[ws].floats
                else f[x].ty == FloatingCon && x in f[ws].floats)
  {
    var nodes := f[ws].nodes;
    assert nodes[..|nodes|] == nodes;
    NotOwnChild(f, ws);
    assert EdgeAgrees(f, ws, x);
  }

  lemma MovedEnds(f: Forest, ws: Con, n: Con, layout: Layout)
    requires CanEncapsulate(f, ws) && CanMove(f, ws, n)
    ensures var g := Partly(f, ws, n, layout, |f[ws].nodes|);
            && g[n].ty == Plain && !g[n].floating && g[n].parent == ws
            && g[ws].ty == Workspace && !g[ws].floating
  {
  }

  lemma WayThrough(x: Con, split: Con, ws: Con)
    requires StopAt(x) == Climb && x.parent == split && StopAt(split) == Climb && split.parent == ws &&
             StopAt(ws) == Grounded
    ensures WayUp([x, split, ws], x, false)
  {
  }

  lemma WayHere(x: Con)
    requires StopAt(x) != Climb
    ensures WayUp([x], x, FoundAt(x) != null)
  {
  }

  lemma ShownFields(cons: set<Con>, f: Forest, ws: Con, split: Con, layout: Layout, x: Con)
    requires CanEncapsulate(f, ws) && Moving(cons, f, ws, split, layout, |f[ws].nodes|) && x in f[ws].focus
    ensures x in f && x.ty == f[x].ty
    ensures if x in f[ws].nodes then
              x.parent == split && !x.floating && x.ty != Workspace && x.ty != FloatingCon && x !in f[ws].floats
            else x.ty == FloatingCon && x in f[ws].floats
  {
    MovedFields(f, ws, split, layout, x);
    assert View(cons)[x] == Snapshot(x);
    assert x in f[ws].nodes ==> f[x].ty != FloatingCon;
  }

  lemma ShownEnds(cons: set<Con>, f: Forest, ws: Con, split: Con, layout: Layout)
    requires CanEncapsulate(f, ws) && Moving(cons, f, ws, split, layout, |f[ws].nodes|)
    ensures split.ty == Plain && !split.floating && split.parent == ws && ws.ty == Workspace && !ws.floating
  {
    MovedEnds(f, ws, split, layout);
    assert View(cons)[split] == Snapshot(split) && View(cons)[ws] == Snapshot(ws);
  }

  lemma SavedWay(cons: set<Con>, f: Forest, ws: Con, split: Con, layout: Layout, i: nat)
    requires CanEncapsulate(f, ws) && Moving(cons, f, ws, split, layout, |f[ws].nodes|) && i < |f[ws].focus|
    ensures WayUp(SavedPaths(f, ws, split)[i], f[ws].focus[i], f[ws].focus[i] in f[ws].floats)
  {
    var x := f[ws].focus[i];
    ShownFields(cons, f, ws, split, layout, x);
    ShownEnds(cons, f, ws, split, layout);
    if x in f[ws].nodes && f[x].ty != Output {
      WayThrough(x, split, ws);
    } else {
      WayHere(x);
    }
  }

  method RefillSplit(split: Con, order: seq<Con>, ghost skip: seq<Con>, ghost paths: seq<seq<Con>>,
                     ghost cons: set<Con>)
    requires Ways(order, skip, paths) && split in cons && split.ty != Workspace
    requires |split.focus| == |Skipping(order, skip)|
    modifies split`focus
    ensures View(cons) == old(View(cons))[split := old(Snapshot(split)).(focus := Skipping(order, skip))]
  {
    ghost var s := Skipping(order, skip);
    ghost var g: Forest := View(cons)[split := Snapshot(split).(focus := s)];
    SetFocusOrder(split, order, skip, paths);
    assert s[..|s|] == s;
    ShowView(cons, g);
  }

  /** set_focus_order(new, focus_order) */
  method RestoreFocus(ws: Con, split: Con, order: seq<Con>, layout: Layout, ghost cons: set<Con>, ghost f: Forest)
    requires CanEncapsulate(f, ws) && Moving(cons, f, ws, split, layout, |f[ws].nodes|) && order == f[ws].focus
    modifies split`focus
    ensures View(cons) == Refilled(f, ws, split, layout)
  {
    ghost var n, paths := |f[ws].nodes|, SavedPaths(f, ws, split);
    forall i {:trigger paths[i]} | 0 <= i < |order| ensures WayUp(paths[i], order[i], order[i] in f[ws].floats) {
      SavedWay(cons, f, ws, split, layout, i);
    }
    ghost var g := View(cons);
    assert g[split] == Snapshot(split) == SplitNode(f[ws], ws, layout, n);
    TilingCount(f, ws);
    RefillSplit(split, order, f[ws].floats, paths, cons);
    assert View(cons) == g[split := g[split].(focus := Skipping(order, f[ws].floats))];
  }

  /** What follows the moving loop. */
  method FinishWrap(ws: Con, split: Con, order: seq<Con>, layout: Layout, ghost cons: set<Con>, ghost f: Forest)
    requires CanEncapsulate(f, ws) && Moving(cons, f, ws, split, layout, |f[ws].nodes|) && order == f[ws].focus
    modifies ws, split
    ensures View(cons) == Wrap(f, ws, split, layout)
  {
    WrapLast(f, ws, split, layout);
    RestoreFocus(ws, split, order, layout, cons, f);
    ConAttach(split, ws, null, false, cons);
  }

  /** What precedes it, with the saved focus order. */
  method PrepareWrap(ws: Con, layout: Layout, ghost cons: set<Con>) returns (split: Con, order: seq<Con>)
    requires ws in cons && CanEncapsulate(View(cons), ws)
    modifies ws`lastSplitLayout
    ensures fresh(split) && order == old(ws.focus)
    ensures Moving(cons + {split}, old(View(cons)), ws, split, layout, 0)
  {
    order := GetFocusOrder(ws);
    split := BeginWrap(ws, layout, cons);
  }

  /** On a workspace with tiling children, up to tree_flatten. */
  method WrapChildren(ws: Con, layout: Layout, ghost cons: set<Con>) returns (split: Con)
    requires ws in cons && CanEncapsulate(View(cons), ws)
    modifies ws, ws.nodes
    ensures fresh(split)
    ensures View(cons + {split}) == Wrap(old(View(cons)), ws, split, layout)
  {
    ghost var f := View(cons);
    var order: seq<Con>;
    split, order := PrepareWrap(ws, layout, cons);
    MoveAll(ws, split, layout, cons + {split}, f);
    FinishWrap(ws, split, order, layout, cons + {split}, f);
  }

  /** An empty workspace: the layout is for whatever will be attached. */
  method SetEmptyLayout(ws: Con, layout: Layout)
    modifies ws`lastSplitLayout, ws`workspaceLayout, ws`layout
    ensures Snapshot(ws) == LaidOut(old(Snapshot(ws)), layout)
  {
    if ws.layout == SplitH || ws.layout == SplitV {
      ws.lastSplitLayout := ws.layout;
    }
    ws.workspaceLayout := if layout == Stacked || layout == Tabbed || layout == Scrolling then layout else Default;
    ws.layout := layout;
    if layout == Default {
      ws.layout := ws.lastSplitLayout;
      if ws.layout == Default {
        ws.layout := SplitH;
      }
    }
  }

  /** con_set_layout on a workspace. */
  method ConSetLayout(ws: Con, layout: Layout, ghost cons: set<Con>) returns (split: Con?)
    requires ws in cons && ws.ty == Workspace && (ws.nodes != [] ==> CanEncapsulate(View(cons), ws))
    modifies ws, ws.nodes
    ensures old(ws.nodes) == [] ==>
            split == null && View(cons) == old(View(cons))[ws := LaidOut(old(Snapshot(ws)), layout)]
    ensures old(ws.nodes) != [] ==>
            split != null && fresh(split) && View(cons + {split}) == Wrap(old(View(cons)), ws, split, layout)
  {
    if ws.nodes == [] {
      ghost var g: Forest := View(cons)[ws := LaidOut(Snapshot(ws), layout)];
      SetEmptyLayout(ws, layout);
      ShowView(cons, g);
      split := null;
    } else {
      split := WrapChildren(ws, layout, cons);
    }
  }
}
