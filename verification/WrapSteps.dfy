/** Encapsulating a workspace, one child at a time. */
module WrapSteps {
  import opened Order
  import opened Containers
  import opened Attachment
  import opened Encapsulation
  import Focus

  /** The workspace and the new split once `k` children have moved. */
  ghost function WsNode(m: Node, k: nat): Node
    requires k <= |m.nodes|
  {
    m.(lastSplitLayout := SplitLayout(m), nodes := m.nodes[k..], focus := Skipping(m.focus, m.nodes[..k]))
  }

  ghost function SplitNode(m: Node, ws: Con, layout: Layout, k: nat): Node
    requires k <= |m.nodes|
  {
    Fresh(None).(parent := ws, layout := layout, lastSplitLayout := SplitLayout(m), nodes := m.nodes[..k],
      focus := m.nodes[..k])
  }

  ghost function Partly(f: Forest, ws: Con, n: Con, layout: Layout, k: nat): Forest
    requires ws in f && k <= |f[ws].nodes|
  {
    map q | q in f.Keys + {n} ::
      if q == n then SplitNode(f[ws], ws, layout, k)
      else if q == ws then WsNode(f[ws], k)
      else if q in f[ws].nodes[..k] then f[q].(parent := n)
      else f[q]
  }

  /** Children of a workspace are not workspaces. */
  ghost predicate CanMove(f: Forest, ws: Con, n: Con) {
    CanWrap(f, ws, n) && forall c :: c in f[ws].nodes ==> c in f && f[c].ty != Workspace && f[c].ty != FloatingCon
  }

  lemma WithoutHead<T>(x: T, t: seq<T>)
    ensures x in [x] + t && Without([x] + t, x) == t
  {
  }

  lemma WithoutBehind<T>(y: T, t: seq<T>, x: T)
    requires x in t && x != y
    ensures x in [y] + t && Without([y] + t, x) == [y] + Without(t, x)
  {
    assert ([y] + t)[1..] == t;
    assert IndexOf([y] + t, x) == IndexOf(t, x) + 1;
  }

  lemma {:induction false} SkippingSame<T>(s: seq<T>, skip: seq<T>, skip': seq<T>)
    requires forall x :: x in s ==> (x in skip <==> x in skip')
    ensures Skipping(s, skip) == Skipping(s, skip')
  {
    if s != [] {
      SkippingSame(s[1..], skip, skip');
    }
  }

  lemma {:induction false} SkippingOneMore<T>(s: seq<T>, skip: seq<T>, x: T)
    requires Distinct(s) && x in s && x !in skip
    ensures x in Skipping(s, skip) && Without(Skipping(s, skip), x) == Skipping(s, skip + [x])
  {
    if s[0] == x {
      assert x !in s[1..];
      SkippingSame(s[1..], skip, skip + [x]);
      WithoutHead(x, Skipping(s[1..], skip));
    } else {
      SkippingOneMore(s[1..], skip, x);
      WithoutBehind(s[0], Skipping(s[1..], skip), x);
    }
  }

  lemma {:induction false} KeptIsSkipping<T>(s: seq<T>, keep: seq<T>, skip: seq<T>)
    requires forall x :: x in s ==> (x in keep <==> x !in skip)
    ensures Kept(s, keep) == Skipping(s, skip)
  {
    if s != [] {
      KeptIsSkipping(s[1..], keep, skip);
    }
  }

  ghost function NewSplit(f: Forest, ws: Con, layout: Layout): Node
    requires ws in f
  {
    Fresh(None).(parent := ws, layout := layout, lastSplitLayout := SplitLayout(f[ws]))
  }

  lemma {:induction false} SkippingNone<T>(s: seq<T>)
    ensures Skipping(s, []) == s
  {
    if s != [] { SkippingNone(s[1..]); }
  }

  /** Before the first child: the new split is just there. */
  lemma PartlyStart(f: Forest, ws: Con, n: Con, layout: Layout)
    requires CanMove(f, ws, n)
    ensures Partly(f, ws, n, layout, 0) ==
            f[ws := f[ws].(lastSplitLayout := SplitLayout(f[ws]))][n := NewSplit(f, ws, layout)]
    ensures WellFormed(Partly(f, ws, n, layout, 0))
  {
    SkippingNone(f[ws].focus);
    assert f[ws].nodes[0..] == f[ws].nodes && f[ws].nodes[..0] == [];
    var g := f[ws := f[ws].(lastSplitLayout := SplitLayout(f[ws]))];
    SameTree(f, g);
    NewcomerKeeps(g, n, NewSplit(f, ws, layout));
  }

  /** The next child can be detached ... */
  lemma PartlyDetach(f: Forest, ws: Con, n: Con, layout: Layout, k: nat)
    requires CanMove(f, ws, n) && k < |f[ws].nodes| && WellFormed(Partly(f, ws, n, layout, k))
    ensures var g, c := Partly(f, ws, n, layout, k), f[ws].nodes[k];
            && c in g && Attached(g, c) && c != n && c != ws && g[c].ty == f[c].ty
            && Detach(g, c) == g[ws := Unlisting(g[ws], c, f[c].ty)]
  {
    var g, c := Partly(f, ws, n, layout, k), f[ws].nodes[k];
    assert c in f[ws].nodes;
    assert OwnLists(f[ws]) && c in f[ws].focus && EdgeAgrees(f, ws, c);
    NotOwnChild(f, ws);
    assert c !in f[ws].nodes[..k];
  }

  /** The new split is not listed yet. */
  lemma SplitAlone(f: Forest, ws: Con, n: Con, layout: Layout, k: nat)
    requires CanMove(f, ws, n) && k < |f[ws].nodes| && WellFormed(Partly(f, ws, n, layout, k))
    requires var g, c := Partly(f, ws, n, layout, k), f[ws].nodes[k];
             c in g && Attached(g, c) && WellFormed(Detach(g, c))
    ensures var g, c := Partly(f, ws, n, layout, k), f[ws].nodes[k]; Line(Detach(g, c), n) == [n]
  {
    var g, c := Partly(f, ws, n, layout, k), f[ws].nodes[k];
    assert n !in f[ws].focus;
    assert n !in g[ws].focus;
    WithoutMembers(g[g[c].parent].focus, c);
    assert !Attached(Detach(g, c), n);
  }

  lemma PartlyCanAttach(f: Forest, ws: Con, n: Con, layout: Layout, k: nat)
    requires CanMove(f, ws, n) && k < |f[ws].nodes| && WellFormed(Partly(f, ws, n, layout, k))
    ensures var g, c := Partly(f, ws, n, layout, k), f[ws].nodes[k];
            c in g && Attached(g, c) && CanAttach(Detach(g, c), c, n, None)
  {
    var g, c := Partly(f, ws, n, layout, k), f[ws].nodes[k];
    PartlyDetach(f, ws, n, layout, k);
    DetachKeeps(g, c);
    assert !Inside(Detach(g, c), n, c) by { SplitAlone(f, ws, n, layout, k); }
  }

  lemma PartlyPlace(f: Forest, ws: Con, n: Con, layout: Layout, k: nat)
    requires CanMove(f, ws, n) && k < |f[ws].nodes| && WellFormed(Partly(f, ws, n, layout, k))
    requires var g, c := Partly(f, ws, n, layout, k), f[ws].nodes[k];
             c in g && Attached(g, c) && CanAttach(Detach(g, c), c, n, None)
    ensures var g, c := Partly(f, ws, n, layout, k), f[ws].nodes[k];
            Place(Detach(g, c), c, n, None, true) == k
  {
    PartlyDetach(f, ws, n, layout, k);
    assert f[ws].nodes[k] in f[ws].nodes;
  }

  /** Detaching the next child and attaching it to the split moves it. */
  ghost predicate Moves(f: Forest, ws: Con, n: Con, layout: Layout, k: nat)
    requires ws in f && k < |f[ws].nodes|
  {
    var g, c := Partly(f, ws, n, layout, k), f[ws].nodes[k];
    && WellFormed(g) && c in g && Attached(g, c) && CanAttach(Detach(g, c), c, n, None)
    && Attach(Detach(g, c), c, n, None, true) == Partly(f, ws, n, layout, k + 1)
  }

  lemma WsNodeNext(m: Node, k: nat, c: Con)
    requires OwnLists(m) && k < |m.nodes| && c == m.nodes[k]
    ensures c in WsNode(m, k).focus && c in WsNode(m, k).nodes
    ensures Unlisting(WsNode(m, k), c, Plain) == WsNode(m, k + 1)
  {
    assert c in m.nodes && c !in m.nodes[..k];
    SkippingOneMore(m.focus, m.nodes[..k], c);
    assert m.nodes[..k] + [c] == m.nodes[..k + 1];
    WithoutFirst(m.nodes, k);
  }

  lemma SplitNodeNext(m: Node, ws: Con, layout: Layout, k: nat)
    requires k < |m.nodes|
    ensures Listing(SplitNode(m, ws, layout, k), m.nodes[k], Plain, k) == SplitNode(m, ws, layout, k + 1)
  {
    assert m.nodes[..k] + [m.nodes[k]] == m.nodes[..k + 1];
    assert m.nodes[..k][..k] + [m.nodes[k]] + m.nodes[..k][k..] == m.nodes[..k + 1];
  }

  /** Moving one child rewrites three containers. */
  lemma PartlyMoved(f: Forest, ws: Con, n: Con, layout: Layout, k: nat)
    requires ws in f && n !in f && k < |f[ws].nodes| && f[ws].nodes[k] in f && f[ws].nodes[k] != ws
    requires f[ws].nodes[k] !in f[ws].nodes[..k]
    ensures var c := f[ws].nodes[k];
            Partly(f, ws, n, layout, k + 1) ==
              Partly(f, ws, n, layout, k)[ws := WsNode(f[ws], k + 1)][c := f[c].(parent := n)][n := SplitNode(f[ws], ws,
                layout, k + 1)]
  {
    var nodes := f[ws].nodes;
    forall q | q in f ensures q in nodes[..k + 1] <==> q in nodes[..k] || q == nodes[k] {
      assert nodes[..k + 1] == nodes[..k] + [nodes[k]];
    }
  }

  lemma PartlyNext(f: Forest, ws: Con, n: Con, layout: Layout, k: nat)
    requires CanMove(f, ws, n) && k < |f[ws].nodes| && WellFormed(Partly(f, ws, n, layout, k))
    requires var g, c := Partly(f, ws, n, layout, k), f[ws].nodes[k]; c in g && Attached(g, c)
    ensures var g, c := Partly(f, ws, n, layout, k), f[ws].nodes[k];
            n in Detach(g, c) && Listed(Detach(g, c), c, n, k) == Partly(f, ws, n, layout, k + 1)
  {
    var g, c := Partly(f, ws, n, layout, k), f[ws].nodes[k];
    PartlyDetach(f, ws, n, layout, k);
    assert OwnLists(f[ws]) && f[c].ty != FloatingCon by { assert c in f[ws].nodes; }
    WsNodeNext(f[ws], k, c);
    SplitNodeNext(f[ws], ws, layout, k);
    PartlyMoved(f, ws, n, layout, k);
  }

  /** ... and attached to the split: at the end of both lists. */
  lemma PartlyStep(f: Forest, ws: Con, n: Con, layout: Layout, k: nat)
    requires CanMove(f, ws, n) && k < |f[ws].nodes| && WellFormed(Partly(f, ws, n, layout, k))
    ensures Moves(f, ws, n, layout, k) && WellFormed(Partly(f, ws, n, layout, k + 1))
  {
    var g, c := Partly(f, ws, n, layout, k), f[ws].nodes[k];
    PartlyCanAttach(f, ws, n, layout, k);
    PartlyPlace(f, ws, n, layout, k);
    PartlyNext(f, ws, n, layout, k);
    DetachKeeps(g, c);
    AttachKeeps(Detach(g, c), c, n, k);
  }

  /** All children moved and the focus order restored. */
  ghost function Refilled(f: Forest, ws: Con, n: Con, layout: Layout): Forest
    requires ws in f
  {
    Partly(f, ws, n, layout, |f[ws].nodes|)
      [n := SplitNode(f[ws], ws, layout, |f[ws].nodes|).(focus := Skipping(f[ws].focus, f[ws].floats))]
  }

  lemma RefilledTree(f: Forest, ws: Con, n: Con, layout: Layout)
    requires CanMove(f, ws, n) && WellFormed(Partly(f, ws, n, layout, |f[ws].nodes|))
    ensures WellFormed(Refilled(f, ws, n, layout))
  {
    var p, g := Partly(f, ws, n, layout, |f[ws].nodes|), Refilled(f, ws, n, layout);
    var nodes := f[ws].nodes;
    assert nodes[..|nodes|] == nodes;
    assert OwnLists(f[ws]);
    forall x | x in f[ws].focus ensures x in nodes <==> x !in f[ws].floats {
      assert EdgeAgrees(f, ws, x);
    }
    forall q | q in p ensures Distinct(g[q].focus) {
      assert OwnLists(p[q]);
    }
    Focus.RefocusTree(p, g);
  }

  lemma RefilledEdge(f: Forest, ws: Con, n: Con, layout: Layout, q: Con, x: Con)
    requires CanMove(f, ws, n) && q in f.Keys + {n} && x in Refilled(f, ws, n, layout)[q].focus
    ensures x in f && x in f[if q == n then ws else q].focus
  {
    if q != n {
      assert x in f[q].focus;
    }
  }

  /** The workspace does not lie below the new split. */
  lemma WorkspaceAbove(f: Forest, ws: Con, n: Con, layout: Layout)
    requires CanMove(f, ws, n) && WellFormed(Refilled(f, ws, n, layout))
    ensures !Inside(Refilled(f, ws, n, layout), ws, n)
  {
    var g, d := Refilled(f, ws, n, layout), Deepened(f, ws, n);
    forall q, x | q in g && x in g[q].focus && x in g ensures d[q] < d[x] {
      RefilledEdge(f, ws, n, layout, q, x);
    }
    assert Ranked(g, d);
    if Inside(g, ws, n) {
      InsideIsDeeper(g, d, ws, n);
    }
  }

  /** With no tiling child left, the split goes first in the tiling list. */
  lemma WrapLastPlace(f: Forest, ws: Con, n: Con, layout: Layout)
    requires CanMove(f, ws, n) && CanAttach(Refilled(f, ws, n, layout), n, ws, None)
    ensures Place(Refilled(f, ws, n, layout), n, ws, None, false) == 0
  {
    var g, nodes := Refilled(f, ws, n, layout), f[ws].nodes;
    assert nodes[..|nodes|] == nodes && nodes[|nodes|..] == [];
    forall x | x in g[ws].focus ensures x in g && g[x].ty == FloatingCon {
      assert x in f[ws].focus && EdgeAgrees(f, ws, x);
    }
    assert FirstTiling(g, g[ws].focus) == None;
  }

  lemma WrapLastWs(m: Node, n: Con)
    requires OwnLists(m) && forall x :: x in m.focus ==> (x in m.floats <==> x !in m.nodes)
    ensures Listing(WsNode(m, |m.nodes|), n, Plain, 0)
            == m.(lastSplitLayout := SplitLayout(m), nodes := [n], focus := Kept(m.focus, m.floats) + [n])
  {
    assert m.nodes[..|m.nodes|] == m.nodes && m.nodes[|m.nodes|..] == [];
    KeptIsSkipping(m.focus, m.floats, m.nodes);
  }

  lemma WrapLastMap(f: Forest, ws: Con, n: Con, layout: Layout)
    requires ws in f && n !in f
    requires Listing(WsNode(f[ws], |f[ws].nodes|), n, Plain, 0)
             == f[ws].(lastSplitLayout := SplitLayout(f[ws]), nodes := [n],
               focus := Kept(f[ws].focus, f[ws].floats) + [n])
    ensures Listed(Refilled(f, ws, n, layout), n, ws, 0) == Wrap(f, ws, n, layout)
  {
    var nodes := f[ws].nodes;
    assert nodes[..|nodes|] == nodes;
  }

  lemma WrapLastNodes(f: Forest, ws: Con, n: Con, layout: Layout)
    requires CanMove(f, ws, n) && CanAttach(Refilled(f, ws, n, layout), n, ws, None)
    ensures Attach(Refilled(f, ws, n, layout), n, ws, None, false) == Wrap(f, ws, n, layout)
  {
    WrapLastPlace(f, ws, n, layout);
    assert OwnLists(f[ws]);
    forall x | x in f[ws].focus ensures x in f[ws].floats <==> x !in f[ws].nodes {
      assert EdgeAgrees(f, ws, x);
    }
    WrapLastWs(f[ws], n);
    WrapLastMap(f, ws, n, layout);
  }

  /** Attaching the new split completes the encapsulation. */
  lemma WrapLast(f: Forest, ws: Con, n: Con, layout: Layout)
    requires CanMove(f, ws, n) && WellFormed(Partly(f, ws, n, layout, |f[ws].nodes|))
    ensures var g := Refilled(f, ws, n, layout);
            CanAttach(g, n, ws, None) && Attach(g, n, ws, None, false) == Wrap(f, ws, n, layout)
  {
    var g := Refilled(f, ws, n, layout);
    RefilledTree(f, ws, n, layout);
    WorkspaceAbove(f, ws, n, layout);
    forall q | q in g ensures n !in g[q].focus {
      if n in g[q].focus { RefilledEdge(f, ws, n, layout, q, n); }
    }
    assert CanAttach(g, n, ws, None);
    WrapLastNodes(f, ws, n, layout);
  }
}
