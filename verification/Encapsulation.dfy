/** Changing the layout of a non-empty workspace: its tiling children move into
  * a new split container. */
module Encapsulation {
  import opened Order
  import opened Containers

  /** The entries of `s` that are, or are not, in `keep`, in order. */
  function Kept<T(==)>(s: seq<T>, keep: seq<T>): (r: seq<T>)
    ensures (forall x :: x in r ==> x in s && x in keep) && (forall x :: x in s && x in keep ==> x in r)
    ensures Distinct(s) ==> Distinct(r)
  {
    if s == [] then [] else if s[0] in keep then [s[0]] + Kept(s[1..], keep) else Kept(s[1..], keep)
  }

  // ---------------------------------------------------------------- set_focus_order

  /** The loop of set_focus_order: from `saved` it takes `heads` entries,
    * counting past those in `skip` by raising its own bound.  None when it
    * would read past the end of `saved`. */
  function Refill<T(==)>(saved: seq<T>, skip: seq<T>, heads: nat): (r: Option<seq<T>>)
    decreases |saved|
  {
    if heads == 0 then Some([])
    else if saved == [] then None
    else if saved[0] in skip then Refill(saved[1..], skip, heads)
    else
      var rest := Refill(saved[1..], skip, heads - 1);
      if rest.Some? then Some([saved[0]] + rest.value) else None
  }

  function Skipping<T(==)>(s: seq<T>, skip: seq<T>): (r: seq<T>)
    ensures |r| <= |s|
    ensures (forall x :: x in r ==> x in s && x !in skip) && (forall x :: x in s && x !in skip ==> x in r)
    ensures Distinct(s) ==> Distinct(r)
  {
    if s == [] then [] else if s[0] in skip then Skipping(s[1..], skip) else [s[0]] + Skipping(s[1..], skip)
  }

  /** It stays inside the array exactly when enough entries are not skipped, and
    * then restores the first of those, in the saved order. */
  lemma {:induction false} RefillExact<T>(saved: seq<T>, skip: seq<T>, heads: nat)
    ensures Refill(saved, skip, heads).Some? <==> heads <= |Skipping(saved, skip)|
    ensures heads <= |Skipping(saved, skip)| ==> Refill(saved, skip, heads).value == Skipping(saved, skip)[..heads]
    decreases |saved|
  {
    if heads > 0 && saved != [] {
      if saved[0] in skip {
        RefillExact(saved[1..], skip, heads);
      } else {
        RefillExact(saved[1..], skip, heads - 1);
      }
    }
  }

  // ---------------------------------------------------------------- the new split

  ghost predicate CanWrap(f: Forest, ws: Con, n: Con) {
    WellFormed(f) && ws in f && f[ws].ty == Workspace && f[ws].nodes != [] && n !in f
  }

  function SplitLayout(n: Node): Layout {
    if n.layout == SplitH || n.layout == SplitV then n.layout else n.lastSplitLayout
  }

  /** An empty workspace given a layout.  Only the layouts that need a split of
    * their own are kept for the windows to come. */
  function LaidOut(n: Node, layout: Layout): Node {
    var split := SplitLayout(n);
    n.(lastSplitLayout := split,
       workspaceLayout := if layout == Stacked || layout == Tabbed || layout == Scrolling then layout else Default,
       layout := if layout != Default then layout else if split != Default then split else SplitH)
  }

  /** Its own layout is the one asked for; "default" stands for the split layout it
    * has or had last, or a horizontal one. */
  lemma LaidOutLayout(n: Node, layout: Layout)
    ensures var m := LaidOut(n, layout);
            && m == n.(layout := m.layout, lastSplitLayout := m.lastSplitLayout, workspaceLayout := m.workspaceLayout)
            && (layout != Default ==> m.layout == layout)
            && (n.layout == SplitH || n.layout == SplitV ==> m.lastSplitLayout == n.layout)
            && (n.layout != SplitH && n.layout != SplitV ==> m.lastSplitLayout == n.lastSplitLayout)
            && (layout == Default && m.lastSplitLayout != Default ==> m.layout == m.lastSplitLayout)
            && (layout == Default && m.lastSplitLayout == Default ==> m.layout == SplitH)
  {
  }

  /** The workspace branch of con_set_layout, up to tree_flatten. */
  ghost function Wrap(f: Forest, ws: Con, n: Con, layout: Layout): Forest
    requires ws in f
  {
    map q | q in f.Keys + {n} ::
      if q == n then Fresh(None).(parent := ws, layout := layout, lastSplitLayout := SplitLayout(f[ws]),
                                  nodes := f[ws].nodes, focus := Skipping(f[ws].focus, f[ws].floats))
      else if q == ws then f[ws].(lastSplitLayout := SplitLayout(f[ws]),
                                  nodes := [n], focus := Kept(f[ws].focus, f[ws].floats) + [n])
      else if q in f[ws].nodes then f[q].(parent := n)
      else f[q]
  }

  lemma WrapLists(f: Forest, ws: Con, n: Con, layout: Layout)
    requires CanWrap(f, ws, n)
    ensures ListsAgree(Wrap(f, ws, n, layout))
  {
    var g := Wrap(f, ws, n, layout);
    assert OwnLists(f[ws]);
    assert n !in f[ws].focus;
    InsertedMembers(Kept(f[ws].focus, f[ws].floats), |Kept(f[ws].focus, f[ws].floats)|, n);
    forall x | x in f[ws].nodes ensures x in g[n].focus {
      assert x in f[ws].focus;
    }
    forall q | q in g ensures OwnLists(g[q]) {
      assert q in f ==> OwnLists(f[q]);
    }
  }

  /** Nothing but its old children changes parent, and those are `n`'s now. */
  lemma WrapParentOf(f: Forest, ws: Con, n: Con, layout: Layout, x: Con)
    requires CanWrap(f, ws, n) && x in f
    ensures var g := Wrap(f, ws, n, layout);
            && ws !in f[ws].nodes && g[x].ty == f[x].ty
            && g[x].parent == (if x in f[ws].nodes then n else f[x].parent)
  {
    NotOwnChild(f, ws);
    assert OwnLists(f[ws]);
  }

  lemma WrapEdge(f: Forest, ws: Con, n: Con, layout: Layout, q: Con, x: Con)
    requires CanWrap(f, ws, n)
    requires q in f.Keys + {n} && x in Wrap(f, ws, n, layout)[q].focus
    ensures EdgeAgrees(Wrap(f, ws, n, layout), q, x)
  {
    assert OwnLists(f[ws]);
    if q == n {
      assert x in f[ws].focus && x in f[ws].nodes;
      WrapParentOf(f, ws, n, layout, x);
    } else if q == ws {
      assert n !in f[ws].floats;
      if x != n {
        assert x in f[ws].focus && x !in f[ws].nodes;
        WrapParentOf(f, ws, n, layout, x);
      }
    } else {
      assert x in f[q].focus && x !in f[ws].nodes;
      WrapParentOf(f, ws, n, layout, x);
    }
  }

  lemma WrapParents(f: Forest, ws: Con, n: Con, layout: Layout)
    requires CanWrap(f, ws, n)
    ensures ParentsAgree(Wrap(f, ws, n, layout))
  {
    var g := Wrap(f, ws, n, layout);
    forall q, x | q in g && x in g[q].focus ensures EdgeAgrees(g, q, x) {
      WrapEdge(f, ws, n, layout, q, x);
    }
  }

  ghost function Deepened(f: Forest, ws: Con, n: Con): map<Con, nat>
    requires Acyclic(f) && ws in f
  {
    var depth := Depths(f);
    map x | x in f.Keys + {n} :: if x == n then 2 * depth[ws] + 1 else 2 * depth[x]
  }

  lemma WrapRanked(f: Forest, ws: Con, n: Con, layout: Layout)
    requires CanWrap(f, ws, n)
    ensures Ranked(Wrap(f, ws, n, layout), Deepened(f, ws, n))
  {
    var g, d := Wrap(f, ws, n, layout), Deepened(f, ws, n);
    forall q, x | q in g && x in g[q].focus && x in g ensures d[q] < d[x] {
      if q == n || q == ws {
        assert x == n || x in f[ws].focus;
      } else {
        assert x in f[q].focus;
      }
    }
  }

  /** Two lists without repetition and with the same members are equally long. */
  lemma {:induction false} SameSize<T>(s: seq<T>, t: seq<T>)
    requires Distinct(s) && Distinct(t)
    requires (forall x :: x in s ==> x in t) && (forall x :: x in t ==> x in s)
    ensures |s| == |t|
  {
    assert t != [] ==> t[0] in t;
    if s != [] {
      var u := Without(t, s[0]);
      WithoutMembers(t, s[0]);
      forall x | x in u ensures x in s[1..] {
        var i := IndexOf(s, x);
        assert s[1..][i - 1] == x;
      }
      SameSize(s[1..], u);
    }
  }

  /** As many focus entries survive the filter as there are tiling children. */
  lemma TilingCount(f: Forest, p: Con)
    requires WellFormed(f) && p in f
    ensures |Skipping(f[p].focus, f[p].floats)| == |f[p].nodes|
  {
    var n := f[p];
    assert OwnLists(n);
    forall x | x in n.focus ensures x in n.nodes <==> x !in n.floats { }
    SameSize(Skipping(n.focus, n.floats), n.nodes);
  }

  /** All tiling children move with their order, both orders: the new split's
    * focus order is the workspace's with the floating containers left out, and
    * refilling it reads inside the saved array. */
  lemma WrapOrders(f: Forest, ws: Con, n: Con, layout: Layout)
    requires CanWrap(f, ws, n)
    ensures var g := Wrap(f, ws, n, layout);
            && g[n].nodes == f[ws].nodes && g[n].floats == [] && g[ws].nodes == [n] && g[ws].floats == f[ws].floats
            && Refill(f[ws].focus, f[ws].floats, |f[ws].nodes|) == Some(g[n].focus)
  {
    TilingCount(f, ws);
    RefillExact(f[ws].focus, f[ws].floats, |f[ws].nodes|);
    var s := Skipping(f[ws].focus, f[ws].floats);
    assert s[..|s|] == s;
  }

  /** The new split: the layout asked for, the workspace above, and the split
    * layout the workspace has or had last.  The children only change parent, the
    * workspace only its lists and that memory; nobody else is touched. */
  lemma WrapSplit(f: Forest, ws: Con, n: Con, layout: Layout)
    requires CanWrap(f, ws, n)
    ensures var g := Wrap(f, ws, n, layout);
            && g.Keys == f.Keys + {n}
            && g[n].layout == layout && g[n].parent == ws && g[n].ty == Plain && g[n].window == None
            && g[n].lastSplitLayout == g[ws].lastSplitLayout
            && (f[ws].layout == SplitH || f[ws].layout == SplitV ==> g[n].lastSplitLayout == f[ws].layout)
            && (f[ws].layout != SplitH && f[ws].layout != SplitV ==> g[n].lastSplitLayout == f[ws].lastSplitLayout)
            && g[ws] == f[ws].(lastSplitLayout := g[ws].lastSplitLayout, nodes := g[ws].nodes, focus := g[ws].focus)
            && (forall x :: x in f && x in f[ws].nodes ==> g[x] == f[x].(parent := n))
            && (forall x :: x in f && x !in f[ws].nodes && x != ws ==> g[x] == f[x])
  {
    NotOwnChild(f, ws);
    assert OwnLists(f[ws]);
  }

  /** `s` with some entries left out. */
  predicate Thinned<T(==)>(s: seq<T>, r: seq<T>)
    decreases |s|
  {
    if s == [] then r == [] else (r != [] && r[0] == s[0] && Thinned(s[1..], r[1..])) || Thinned(s[1..], r)
  }

  lemma {:induction false} SkippingThins<T>(s: seq<T>, skip: seq<T>)
    ensures Thinned(s, Skipping(s, skip))
  {
    if s != [] {
      SkippingThins(s[1..], skip);
    }
  }

  lemma {:induction false} KeptThins<T>(s: seq<T>, keep: seq<T>)
    ensures Thinned(s, Kept(s, keep))
  {
    if s != [] {
      KeptThins(s[1..], keep);
    }
  }

  /** In both focus orders the containers stand as they did before: the tiling ones
    * in the new split's, the floating ones in the workspace's, ahead of the split. */
  lemma WrapFocus(f: Forest, ws: Con, n: Con, layout: Layout)
    requires CanWrap(f, ws, n)
    ensures var g := Wrap(f, ws, n, layout);
            && Thinned(f[ws].focus, g[n].focus) &&
               (forall x :: x in g[n].focus <==> x in f[ws].focus && x !in f[ws].floats)
            && g[ws].focus != [] && g[ws].focus[|g[ws].focus| - 1] == n
            && var floating := g[ws].focus[..|g[ws].focus| - 1];
               Thinned(f[ws].focus, floating) && forall x :: x in floating <==> x in f[ws].focus && x in f[ws].floats
  {
    SkippingThins(f[ws].focus, f[ws].floats);
    KeptThins(f[ws].focus, f[ws].floats);
    var kept := Kept(f[ws].focus, f[ws].floats);
    assert (kept + [n])[..|kept|] == kept;
  }

  /** The tree stays a tree. */
  lemma WrapKeeps(f: Forest, ws: Con, n: Con, layout: Layout)
    requires CanWrap(f, ws, n)
    ensures WellFormed(Wrap(f, ws, n, layout))
  {
    WrapLists(f, ws, n, layout);
    WrapParents(f, ws, n, layout);
    WrapRanked(f, ws, n, layout);
  }
}
