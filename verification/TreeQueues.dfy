/** The queues of a tree of containers on their real pointers: no link belongs to
  * two of them, and swapping on the pointers swaps the lists. */
module TreeQueues {
  import opened Order
  import opened Containers
  import opened Swapping
  import opened TailQueue

  /** The three queues of a container, and in each the place of its head and of
    * its entries within a Con. */
  datatype Kind = Tiling | FloatingWindows | Focused

  datatype Field = Head(kind: Kind) | Entry(kind: Kind)

  /** Where each such field is. */
  type Links = map<(Con, Field), Link>

  ghost predicate Separate(links: Links, cons: set<Con>) {
    && (forall c, d {:trigger (c, d) in links} :: c in cons ==> (c, d) in links)
    && (forall c, d, c', d' {:trigger links[(c, d)], links[(c', d')]} ::
          c in cons && c' in cons && (c, d) in links && (c', d') in links && links[(c, d)] == links[(c', d')] ==>
            c == c' && d == d')
  }

  function Listed(n: Node, kind: Kind): seq<Con> {
    match kind
    case Tiling => n.nodes
    case FloatingWindows => n.floats
    case Focused => n.focus
  }

  ghost predicate Known(f: Forest) {
    forall p, kind {:trigger Listed(f[p], kind)} :: p in f ==> forall c :: c in Listed(f[p], kind) ==> c in f
  }

  lemma ListedKnown(f: Forest)
    requires WellFormed(f)
    ensures Known(f)
  {
    forall p, kind, c | p in f && c in Listed(f[p], kind) ensures c in f {
      assert OwnLists(f[p]) && c in f[p].focus && EdgeAgrees(f, p, c);
    }
  }

  /** A queue as a sequence of links: its head, then the entries of its members. */
  ghost function QueueOf(links: Links, head: Link, members: seq<Con>, kind: Kind): (c: seq<Link>)
    requires forall x :: x in members ==> (x, Entry(kind)) in links
    ensures |c| == |members| + 1 && c[0] == head
    ensures forall i {:trigger c[i]} :: 0 < i < |c| ==> c[i] == links[(members[i - 1], Entry(kind))]
  {
    [head] + seq(|members|, i requires 0 <= i < |members| => links[(members[i], Entry(kind))])
  }

  ghost function ListQueue(links: Links, f: Forest, p: Con, kind: Kind): seq<Link>
    requires Separate(links, f.Keys) && Known(f) && p in f
  {
    QueueOf(links, links[(p, Head(kind))], Listed(f[p], kind), kind)
  }

  lemma OtherParent(f: Forest, p: Con, q: Con, kind: Kind, x: Con, y: Con)
    requires WellFormed(f) && p in f && q in f && p != q && x in Listed(f[p], kind) && y in Listed(f[q], kind)
    ensures x != y
  {
    assert OwnLists(f[p]) && x in f[p].focus && EdgeAgrees(f, p, x);
    assert OwnLists(f[q]) && y in f[q].focus && EdgeAgrees(f, q, y);
  }

  /** No two queues of the tree have a link in common. */
  lemma ListsApart(links: Links, f: Forest, p: Con, kind: Kind, q: Con, kind': Kind)
    requires WellFormed(f) && Known(f) && Separate(links, f.Keys) && p in f && q in f && (p != q || kind != kind')
    ensures Apart(ListQueue(links, f, p, kind), ListQueue(links, f, q, kind'))
  {
    var c, d := ListQueue(links, f, p, kind), ListQueue(links, f, q, kind');
    forall k, l | 0 <= k < |c| && 0 <= l < |d| ensures c[k] != d[l] {
      if k > 0 && l > 0 && kind == kind' {
        OtherParent(f, p, q, kind, Listed(f[p], kind)[k - 1], Listed(f[q], kind)[l - 1]);
      }
    }
  }

  /** Every list of the tree is on the pointers. */
  ghost predicate OnPointers(links: Links, f: Forest)
    requires WellFormed(f) && Known(f) && Separate(links, f.Keys)
    reads links.Values
  {
    forall p, kind {:trigger ListQueue(links, f, p, kind)} :: p in f ==> Queue(ListQueue(links, f, p, kind))
  }

  // ---------------------------------------------------------------- the swap on the pointers

  /** The queue of `p` with the entries of the two containers exchanged. */
  ghost function SwappedLinks(links: Links, f: Forest, a: Con, b: Con, p: Con, kind: Kind): seq<Link>
    requires Separate(links, f.Keys) && Known(f) && p in f && a in f && b in f
  {
    Exchanged(ListQueue(links, f, p, kind), links[(a, Entry(kind))], links[(b, Entry(kind))])
  }

  /** The queue of `p` once the lists of the kinds in `done` are swapped. */
  ghost function PartlySwapped(links: Links, f: Forest, a: Con, b: Con, done: set<Kind>, p: Con, kind: Kind): seq<Link>
    requires Separate(links, f.Keys) && Known(f) && p in f && a in f && b in f
  {
    var c := ListQueue(links, f, p, kind);
    if kind in done then Exchanged(c, links[(a, Entry(kind))], links[(b, Entry(kind))]) else c
  }

  /** What the links hold, as a value. */
  type Pointers = map<Link, (Link?, Link?)>

  ghost function Held(links: Links): (h: Pointers)
    reads links.Values
    ensures h.Keys == links.Values
  {
    map l | l in links.Values :: (l.next, l.prev)
  }

  ghost predicate QueueIn(h: Pointers, c: seq<Link>) {
    && |c| > 0
    && Distinct(c)
    && (forall k {:trigger c[k]} :: 0 <= k < |c| ==> c[k] in h)
    && h[c[|c| - 1]].0 == null && h[c[0]].1 == c[|c| - 1]
    && (forall i {:trigger h[c[i]].0} :: 0 <= i < |c| - 1 ==> h[c[i]].0 == c[i + 1])
    && (forall i {:trigger h[c[i]].1} :: 0 < i < |c| ==> h[c[i]].1 == c[i - 1])
  }

  lemma HeldQueue(links: Links, c: seq<Link>)
    requires forall k {:trigger c[k]} :: 0 <= k < |c| ==> c[k] in links.Values
    ensures Queue(c) <==> QueueIn(Held(links), c)
  {
    var h := Held(links);
    assert forall k {:trigger c[k].next} {:trigger c[k].prev} {:trigger h[c[k]]} :: 0 <= k < |c| ==>
           h[c[k]] == (c[k].next, c[k].prev);
  }

  ghost predicate PartlyOnPointers(h: Pointers, links: Links, f: Forest, a: Con, b: Con, done: set<Kind>)
    requires Separate(links, f.Keys) && Known(f) && a in f && b in f
  {
    forall p, kind {:trigger PartlySwapped(links, f, a, b, done, p, kind)} :: p in f ==>
      QueueIn(h, PartlySwapped(links, f, a, b, done, p, kind))
  }

  /** A swapped queue still has links of its own kind only. */
  lemma PartlyKind(links: Links, f: Forest, a: Con, b: Con, done: set<Kind>, p: Con, kind: Kind, k: nat)
    returns (x: Con, d: Field)
    requires Separate(links, f.Keys) && Known(f) && p in f && a in f && b in f
    requires k < |PartlySwapped(links, f, a, b, done, p, kind)|
    ensures x in f && d.kind == kind && (x, d) in links &&
            PartlySwapped(links, f, a, b, done, p, kind)[k] == links[(x, d)]
  {
    var c := ListQueue(links, f, p, kind);
    x, d := p, Head(kind);
    if k > 0 { x, d := Listed(f[p], kind)[k - 1], Entry(kind); }
    assert c[k] == links[(x, d)];
    if kind in done && c[k] == links[(a, Entry(kind))] {
      x, d := b, Entry(kind);
    } else if kind in done && c[k] == links[(b, Entry(kind))] {
      x, d := a, Entry(kind);
    }
  }

  lemma PartlyLinks(links: Links, f: Forest, a: Con, b: Con, done: set<Kind>, p: Con, kind: Kind)
    requires Separate(links, f.Keys) && Known(f) && p in f && a in f && b in f
    ensures forall k {:trigger PartlySwapped(links, f, a, b, done, p, kind)[k]} ::
              0 <= k < |PartlySwapped(links, f, a, b, done, p, kind)| ==>
              PartlySwapped(links, f, a, b, done, p, kind)[k] in links.Values
  {
    forall k | 0 <= k < |PartlySwapped(links, f, a, b, done, p, kind)|
      ensures PartlySwapped(links, f, a, b, done, p, kind)[k] in links.Values
    {
      var x, d := PartlyKind(links, f, a, b, done, p, kind, k);
    }
  }

  lemma KindsApart(links: Links, f: Forest, a: Con, b: Con, done: set<Kind>, p: Con, kind: Kind, q: Con, kind': Kind)
    requires Separate(links, f.Keys) && Known(f) && p in f && q in f && a in f && b in f && kind != kind'
    ensures Apart(PartlySwapped(links, f, a, b, done, p, kind), ListQueue(links, f, q, kind'))
  {
    var c, e := PartlySwapped(links, f, a, b, done, p, kind), ListQueue(links, f, q, kind');
    forall k, l | 0 <= k < |c| && 0 <= l < |e| ensures c[k] != e[l] {
      var x, d := PartlyKind(links, f, a, b, done, p, kind, k);
    }
  }

  lemma ListedParent(f: Forest, p: Con, kind: Kind, x: Con)
    requires WellFormed(f) && p in f && x in Listed(f[p], kind)
    ensures x in f && f[x].parent == p
  {
    assert OwnLists(f[p]) && x in f[p].focus && EdgeAgrees(f, p, x);
  }

  /** Where neither container is listed, there is nothing to swap. */
  lemma ElsewhereQueue(links: Links, f: Forest, a: Con, b: Con, p: Con, kind: Kind)
    requires CanSwap(f, a, b) && Known(f) && Separate(links, f.Keys) && p in f && p != f[a].parent && p != f[b].parent
    ensures var c := ListQueue(links, f, p, kind); Exchanged(c, links[(a, Entry(kind))], links[(b, Entry(kind))]) == c
  {
    var c := ListQueue(links, f, p, kind);
    forall k | 0 <= k < |c| ensures c[k] != links[(a, Entry(kind))] && c[k] != links[(b, Entry(kind))] {
      if k > 0 { ListedParent(f, p, kind, Listed(f[p], kind)[k - 1]); }
    }
  }

  /** A tiling container is in both lists SWAP_CONS_IN_TREE is used on. */
  lemma ListedByParent(f: Forest, a: Con, kind: Kind)
    requires WellFormed(f) && a in f && Attached(f, a) && f[a].ty == Plain && kind != FloatingWindows
    ensures a in Listed(f[f[a].parent], kind)
  {
    assert EdgeAgrees(f, f[a].parent, a);
  }

  /** Where a tiling container stands in its parent's queue. */
  lemma Standing(links: Links, f: Forest, a: Con, kind: Kind) returns (i: nat)
    requires WellFormed(f) && Known(f) && Separate(links, f.Keys) && a in f && Attached(f, a) && f[a].ty == Plain &&
             kind != FloatingWindows
    ensures 0 < i < |ListQueue(links, f, f[a].parent, kind)|
    ensures ListQueue(links, f, f[a].parent, kind)[i] == links[(a, Entry(kind))]
  {
    ListedByParent(f, a, kind);
    i := IndexOf(Listed(f[f[a].parent], kind), a) + 1;
  }

  lemma OwnMembers(links: Links, f: Forest, p: Con, kind: Kind)
    requires Separate(links, f.Keys) && Known(f) && p in f
    ensures forall l :: l in ListQueue(links, f, p, kind) ==> l in links.Values
  {
    PartlyLinks(links, f, p, p, {}, p, kind);
    assert PartlySwapped(links, f, p, p, {}, p, kind) == ListQueue(links, f, p, kind);
  }

  /** A list on the pointers, before the swap and after it. */
  lemma OwnLinks(links: Links, f: Forest, p: Con, kind: Kind)
    requires Separate(links, f.Keys) && Known(f) && p in f
    ensures Queue(ListQueue(links, f, p, kind)) <==> QueueIn(Held(links), ListQueue(links, f, p, kind))
  {
    OwnMembers(links, f, p, kind);
    HeldQueue(links, ListQueue(links, f, p, kind));
  }

  lemma OwnSwapped(links: Links, f: Forest, a: Con, b: Con, p: Con, kind: Kind)
    requires Separate(links, f.Keys) && Known(f) && p in f && a in f && b in f
    requires Queue(SwappedLinks(links, f, a, b, p, kind))
    ensures QueueIn(Held(links), SwappedLinks(links, f, a, b, p, kind))
  {
    PartlyLinks(links, f, a, b, {kind}, p, kind);
    assert PartlySwapped(links, f, a, b, {kind}, p, kind) == SwappedLinks(links, f, a, b, p, kind);
    HeldQueue(links, SwappedLinks(links, f, a, b, p, kind));
  }

  /** SWAP_CONS_IN_TREE on the two lists, which may be one. */
  method SwapTwoLists(links: Links, a: Con, b: Con, pa: Con, pb: Con, kind: Kind, ghost f: Forest)
    requires CanSwap(f, a, b) && Known(f) && Separate(links, f.Keys) && pa == f[a].parent && pb == f[b].parent
    requires kind != FloatingWindows && Queue(ListQueue(links, f, pa, kind)) && Queue(ListQueue(links, f, pb, kind))
    modifies ListQueue(links, f, pa, kind), ListQueue(links, f, pb, kind)
    ensures Queue(SwappedLinks(links, f, a, b, pa, kind)) && Queue(SwappedLinks(links, f, a, b, pb, kind))
  {
    ghost var i := Standing(links, f, a, kind);
    ghost var j := Standing(links, f, b, kind);
    if pa != pb { ListsApart(links, f, pa, kind, pb, kind); }
    SwapConsInTree(links[(pa, Head(kind))], links[(pb, Head(kind))], links[(a, Entry(kind))], links[(b, Entry(kind))],
                   ListQueue(links, f, pa, kind), i, ListQueue(links, f, pb, kind), j);
  }

  ghost predicate Outside(c: seq<Link>, e: seq<Link>) {
    forall l {:trigger l in c} {:trigger l in e} :: l in c ==> l !in e
  }

  lemma ApartOutside(c: seq<Link>, e: seq<Link>)
    requires Apart(c, e)
    ensures Outside(c, e)
  {
    forall l, m | l in c && 0 <= m < |e| ensures e[m] != l {
      assert c[IndexOf(c, l)] == l;
    }
  }

  /** Every other queue is apart from those two, and stays. */
  lemma Untouched(links: Links, f: Forest, a: Con, b: Con, done: set<Kind>, kind: Kind, p: Con, k: Kind)
    requires CanSwap(f, a, b) && Known(f) && Separate(links, f.Keys) && p in f && kind !in done
    requires k != kind || (p != f[a].parent && p != f[b].parent)
    ensures PartlySwapped(links, f, a, b, done + {kind}, p, k) == PartlySwapped(links, f, a, b, done, p, k)
    ensures Outside(PartlySwapped(links, f, a, b, done, p, k), ListQueue(links, f, f[a].parent, kind))
    ensures Outside(PartlySwapped(links, f, a, b, done, p, k), ListQueue(links, f, f[b].parent, kind))
  {
    if k != kind {
      KindsApart(links, f, a, b, done, p, k, f[a].parent, kind);
      KindsApart(links, f, a, b, done, p, k, f[b].parent, kind);
    } else {
      ElsewhereQueue(links, f, a, b, p, kind);
      ListsApart(links, f, p, kind, f[a].parent, kind);
      ListsApart(links, f, p, kind, f[b].parent, kind);
    }
    ApartOutside(PartlySwapped(links, f, a, b, done, p, k), ListQueue(links, f, f[a].parent, kind));
    ApartOutside(PartlySwapped(links, f, a, b, done, p, k), ListQueue(links, f, f[b].parent, kind));
  }

  /** Nothing outside the two queues was written. */
  ghost predicate WroteOnly(h: Pointers, h': Pointers, c1: seq<Link>, c2: seq<Link>) {
    && h.Keys == h'.Keys
    && forall l {:trigger h'[l]} :: l in h && l !in c1 && l !in c2 ==> h'[l] == h[l]
  }

  /** A queue apart from everything written stays one. */
  lemma StaysQueue(h: Pointers, h': Pointers, c: seq<Link>, c1: seq<Link>, c2: seq<Link>)
    requires QueueIn(h, c) && Outside(c, c1) && Outside(c, c2) && WroteOnly(h, h', c1, c2)
    ensures QueueIn(h', c)
  {
    forall k | 0 <= k < |c| ensures h'[c[k]] == h[c[k]] {
      assert c[k] in c;
    }
  }

  /** With the two queues swapped and the others untouched, all is swapped. */
  lemma KindSwapped(h: Pointers, h': Pointers, links: Links, f: Forest, a: Con, b: Con, kind: Kind, done: set<Kind>)
    requires CanSwap(f, a, b) && Known(f) && Separate(links, f.Keys) && kind !in done
    requires PartlyOnPointers(h, links, f, a, b, done)
    requires QueueIn(h', SwappedLinks(links, f, a, b, f[a].parent, kind)) &&
             QueueIn(h', SwappedLinks(links, f, a, b, f[b].parent, kind))
    requires WroteOnly(h, h', ListQueue(links, f, f[a].parent, kind), ListQueue(links, f, f[b].parent, kind))
    ensures PartlyOnPointers(h', links, f, a, b, done + {kind})
  {
    forall p, k | p in f ensures QueueIn(h', PartlySwapped(links, f, a, b, done + {kind}, p, k)) {
      if k != kind || (p != f[a].parent && p != f[b].parent) {
        Untouched(links, f, a, b, done, kind, p, k);
        StaysQueue(h, h', PartlySwapped(links, f, a, b, done, p, k), ListQueue(links, f, f[a].parent, kind),
          ListQueue(links, f, f[b].parent, kind));
      } else {
        assert PartlySwapped(links, f, a, b, done + {kind}, p, k) == SwappedLinks(links, f, a, b, p, k);
      }
    }
  }

  /** The same, and nothing else is written. */
  method SwapPair(links: Links, a: Con, b: Con, pa: Con, pb: Con, kind: Kind, ghost f: Forest)
    requires CanSwap(f, a, b) && Known(f) && Separate(links, f.Keys) && pa == f[a].parent && pb == f[b].parent
    requires kind != FloatingWindows && Queue(ListQueue(links, f, pa, kind)) && Queue(ListQueue(links, f, pb, kind))
    modifies links.Values
    ensures Queue(SwappedLinks(links, f, a, b, pa, kind)) && Queue(SwappedLinks(links, f, a, b, pb, kind))
    ensures WroteOnly(old(Held(links)), Held(links), ListQueue(links, f, pa, kind), ListQueue(links, f, pb, kind))
  {
    OwnMembers(links, f, pa, kind);
    OwnMembers(links, f, pb, kind);
    SwapTwoLists(links, a, b, pa, pb, kind, f);
  }

  /** For one kind of list: it is swapped wherever it has to be, and no other
    * queue is touched. */
  method SwapKind(links: Links, a: Con, b: Con, pa: Con, pb: Con, kind: Kind, ghost f: Forest, ghost done: set<Kind>)
    requires CanSwap(f, a, b) && Known(f) && Separate(links, f.Keys) && pa == f[a].parent && pb == f[b].parent
    requires kind != FloatingWindows && kind !in done && PartlyOnPointers(Held(links), links, f, a, b, done)
    modifies links.Values
    ensures PartlyOnPointers(Held(links), links, f, a, b, done + {kind})
  {
    ghost var h := Held(links);
    assert QueueIn(h, PartlySwapped(links, f, a, b, done, pa, kind)) &&
           QueueIn(h, PartlySwapped(links, f, a, b, done, pb, kind));
    OwnLinks(links, f, pa, kind);
    OwnLinks(links, f, pb, kind);
    SwapPair(links, a, b, pa, pb, kind, f);
    OwnSwapped(links, f, a, b, pa, kind);
    OwnSwapped(links, f, a, b, pb, kind);
    KindSwapped(h, Held(links), links, f, a, b, kind, done);
  }

  lemma ExchangedQueue(links: Links, cons: set<Con>, head: Link, s: seq<Con>, a: Con, b: Con, p: Con, kind: Kind)
    requires Separate(links, cons) && a in cons && b in cons && p in cons && head == links[(p, Head(kind))]
    requires (forall x :: x in s ==> x in cons) && (forall x :: x in Exchanged(s, a, b) ==> x in cons)
    ensures Exchanged(QueueOf(links, head, s, kind), links[(a, Entry(kind))], links[(b, Entry(kind))])
            == QueueOf(links, head, Exchanged(s, a, b), kind)
  {
    var c := Exchanged(QueueOf(links, head, s, kind), links[(a, Entry(kind))], links[(b, Entry(kind))]);
    var e := QueueOf(links, head, Exchanged(s, a, b), kind);
    forall k | 0 <= k < |c| ensures c[k] == e[k] {
      if k > 0 { assert e[k] == links[(Exchanged(s, a, b)[k - 1], Entry(kind))]; }
    }
  }

  /** Both kinds of lists swapped: the queues of the swapped forest. */
  lemma SwappedQueue(links: Links, f: Forest, a: Con, b: Con, p: Con, kind: Kind)
    requires CanSwap(f, a, b) && Known(f) && Separate(links, f.Keys) && p in f
    ensures WellFormed(Swap(f, a, b)) && Known(Swap(f, a, b)) && Separate(links, Swap(f, a, b).Keys)
    ensures PartlySwapped(links, f, a, b, {Tiling, Focused}, p, kind) == ListQueue(links, Swap(f, a, b), p, kind)
  {
    SwapKeeps(f, a, b);
    ListedKnown(Swap(f, a, b));
    var s, r := Listed(f[p], kind), Listed(Swap(f, a, b)[p], kind);
    assert r == if kind == FloatingWindows then s else Exchanged(s, a, b);
    if kind != FloatingWindows {
      ExchangedQueue(links, f.Keys, links[(p, Head(kind))], s, a, b, p, kind);
    }
  }

  lemma OldQueues(links: Links, f: Forest, a: Con, b: Con)
    requires CanSwap(f, a, b) && Known(f) && Separate(links, f.Keys) && OnPointers(links, f)
    ensures PartlyOnPointers(Held(links), links, f, a, b, {})
  {
    forall p, kind | p in f ensures QueueIn(Held(links), PartlySwapped(links, f, a, b, {}, p, kind)) {
      assert PartlySwapped(links, f, a, b, {}, p, kind) == ListQueue(links, f, p, kind);
      OwnLinks(links, f, p, kind);
    }
  }

  lemma NewQueues(links: Links, f: Forest, a: Con, b: Con)
    requires CanSwap(f, a, b) && Known(f) && Separate(links, f.Keys)
    requires PartlyOnPointers(Held(links), links, f, a, b, {} + {Tiling} + {Focused})
    ensures WellFormed(Swap(f, a, b)) && Known(Swap(f, a, b)) && OnPointers(links, Swap(f, a, b))
  {
    assert {} + {Tiling} + {Focused} == {Tiling, Focused};
    SwappedQueue(links, f, a, b, a, Tiling);
    forall p, kind | p in f ensures Queue(ListQueue(links, Swap(f, a, b), p, kind)) {
      SwappedQueue(links, f, a, b, p, kind);
      assert QueueIn(Held(links), PartlySwapped(links, f, a, b, {Tiling, Focused}, p, kind));
      PartlyLinks(links, f, a, b, {Tiling, Focused}, p, kind);
      HeldQueue(links, ListQueue(links, Swap(f, a, b), p, kind));
    }
  }

  /** con_swap's exchange of lists, on the pointers. */
  method SwapQueues(links: Links, a: Con, b: Con, pa: Con, pb: Con, ghost f: Forest)
    requires CanSwap(f, a, b) && Known(f) && Separate(links, f.Keys) && pa == f[a].parent && pb == f[b].parent
    requires OnPointers(links, f)
    modifies links.Values
    ensures WellFormed(Swap(f, a, b)) && Known(Swap(f, a, b)) && OnPointers(links, Swap(f, a, b))
  {
    OldQueues(links, f, a, b);
    SwapKind(links, a, b, pa, pb, Tiling, f, {});
    SwapKind(links, a, b, pa, pb, Focused, f, {} + {Tiling});
    NewQueues(links, f, a, b);
  }
}
