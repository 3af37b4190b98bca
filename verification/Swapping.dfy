/** con_swap: two containers trade places. */
module Swapping {
  import opened Order
  import opened Containers

  /** The cases con_swap does not refuse. */
  ghost predicate CanSwap(f: Forest, a: Con, b: Con) {
    && WellFormed(f)
    && a in f && b in f && Attached(f, a) && Attached(f, b)
    && f[a].ty == Plain && f[b].ty == Plain && a != b
    && !Inside(f, a, b) && !Inside(f, b, a)
  }

  /** Whatever belongs to a place in the tree rather than to its occupant. */
  function Moved(n: Node, place: Node): Node {
    n.(parent := place.parent, floating := place.floating,
       rect := place.rect, windowRect := place.windowRect, percent := place.percent)
  }

  ghost function Swap(f: Forest, a: Con, b: Con): Forest
    requires a in f && b in f
  {
    map q | q in f ::
      (if q == a then Moved(f[a], f[b]) else if q == b then Moved(f[b], f[a]) else f[q]).(
        nodes := Exchanged(f[q].nodes, a, b), focus := Exchanged(f[q].focus, a, b))
  }

  /** Doing it twice undoes it. */
  lemma SwapTwice(f: Forest, a: Con, b: Con)
    requires a in f && b in f && a != b
    ensures Swap(Swap(f, a, b), a, b) == f
  {
    var g := Swap(f, a, b);
    var h := Swap(g, a, b);
    forall q | q in f ensures h[q] == f[q] {
      ExchangeTwice(f[q].nodes, a, b);
      ExchangeTwice(f[q].focus, a, b);
    }
  }

  /** The place at index `i` of `p`'s list keeps its share and its geometry; its
    * occupant changes only from one of the two to the other. */
  lemma PlacesKept(f: Forest, a: Con, b: Con, p: Con, i: nat)
    requires CanSwap(f, a, b) && p in f && i < |f[p].nodes|
    ensures var g := Swap(f, a, b);
            var x, y := f[p].nodes[i], g[p].nodes[i];
            && |g[p].nodes| == |f[p].nodes| && g[p].floats == f[p].floats
            && y == (if x == a then b else if x == b then a else x)
            && x in f && y in g && g[y].parent == f[x].parent == p
            && g[y].percent == f[x].percent && g[y].rect == f[x].rect
            && g[y].windowRect == f[x].windowRect && g[y].floating == f[x].floating
  {
    assert f[p].nodes[i] in f[p].nodes;
    assert f[p].nodes[i] in f[p].focus;
  }

  /** Everything else goes with the container: its window, its children's places,
    * layouts, flags, timer and mode; in focus orders, too, the two stand where the
    * other one stood. */
  lemma ContentsGo(f: Forest, a: Con, b: Con, x: Con)
    requires a in f && b in f && x in f
    ensures var m, n := Swap(f, a, b)[x], f[x];
            && m == n.(parent := m.parent, floating := m.floating, rect := m.rect, windowRect := m.windowRect,
                       percent := m.percent, nodes := m.nodes, focus := m.focus)
            && (x != a && x != b ==> m == n.(nodes := m.nodes, focus := m.focus))
            && |m.focus| == |n.focus| && forall i :: 0 <= i < |n.focus| ==>
                 m.focus[i] == if n.focus[i] == a then b else if n.focus[i] == b then a else n.focus[i]
  {
  }

  /** Depths once each subtree hangs where the other one hung. */
  ghost function Regrafted(f: Forest, a: Con, b: Con): map<Con, nat>
    requires Acyclic(f) && a in f && b in f
  {
    var depth := Depths(f);
    map x | x in f :: depth[x] + (if Inside(f, x, a) then depth[b] else if Inside(f, x, b) then depth[a] else 0)
  }

  /** The parent of one is inside neither. */
  lemma ParentOutside(f: Forest, a: Con, b: Con)
    requires CanSwap(f, a, b)
    ensures !Inside(f, f[b].parent, a) && !Inside(f, f[b].parent, b)
  {
    InsideUnfolds(f, b, a);
    if Inside(f, f[b].parent, b) {
      InsideIsDeeper(f, Depths(f), f[b].parent, b);
    }
  }

  lemma RegraftedEdge(f: Forest, a: Con, b: Con, q: Con, x: Con)
    requires CanSwap(f, a, b) && q in f && x in f && x in Exchanged(f[q].focus, a, b)
    ensures Regrafted(f, a, b)[q] < Regrafted(f, a, b)[x]
  {
    ExchangedMembers(f[q].focus, a, b);
    if x == a || x == b {
      ParentOutside(f, a, b);
      ParentOutside(f, b, a);
    } else {
      assert x in f[q].focus && Attached(f, x);
      InsideUnfolds(f, x, a);
      InsideUnfolds(f, x, b);
    }
  }

  lemma SwapRanked(f: Forest, a: Con, b: Con)
    requires CanSwap(f, a, b)
    ensures Ranked(Swap(f, a, b), Regrafted(f, a, b))
  {
    var g, d := Swap(f, a, b), Regrafted(f, a, b);
    forall q, x | q in g && x in g[q].focus && x in g ensures d[q] < d[x] {
      RegraftedEdge(f, a, b, q, x);
    }
  }

  lemma SwapLists(n: Node, a: Con, b: Con)
    requires OwnLists(n) && a !in n.floats && b !in n.floats
    ensures OwnLists(n.(nodes := Exchanged(n.nodes, a, b), focus := Exchanged(n.focus, a, b)))
  {
    ExchangedMembers(n.nodes, a, b);
    ExchangedMembers(n.focus, a, b);
  }

  lemma SwapEdge(f: Forest, a: Con, b: Con, q: Con, x: Con)
    requires CanSwap(f, a, b) && q in f && x in Swap(f, a, b)[q].focus
    ensures EdgeAgrees(Swap(f, a, b), q, x)
  {
    ExchangedMembers(f[q].focus, a, b);
    ExchangedMembers(f[q].nodes, a, b);
    assert (if x == a then b else if x == b then a else x) in f[q].focus;
  }

  lemma SwapParents(f: Forest, a: Con, b: Con)
    requires CanSwap(f, a, b)
    ensures ParentsAgree(Swap(f, a, b))
  {
    var g := Swap(f, a, b);
    forall q, x | q in g && x in g[q].focus ensures EdgeAgrees(g, q, x) {
      SwapEdge(f, a, b, q, x);
    }
  }

  lemma SwapKeeps(f: Forest, a: Con, b: Con)
    requires CanSwap(f, a, b)
    ensures WellFormed(Swap(f, a, b))
    ensures Attached(Swap(f, a, b), a) && Attached(Swap(f, a, b), b)
  {
    var g := Swap(f, a, b);
    forall q | q in f ensures OwnLists(g[q]) {
      assert a !in f[q].floats && b !in f[q].floats;
      SwapLists(f[q], a, b);
    }
    SwapParents(f, a, b);
    SwapRanked(f, a, b);
    ExchangedMembers(f[f[a].parent].focus, a, b);
    ExchangedMembers(f[f[b].parent].focus, a, b);
  }
}
