/** The intrusive tail queue of queue.h, on its real pointers.
  *
  * A queue head {tqh_first, tqh_last} and an entry {tqe_next, tqe_prev} have the
  * same layout, and the macros that walk backwards rely on it: they read an
  * entry as if it were a head.  One class stands for both.  `next` is tqh_first
  * or tqe_next; `prev` is tqh_last or tqe_prev, "the address of some next
  * field", which is the Link owning that field.  So `*x->tqe_prev` is
  * `x.prev.next`. */
module TailQueue {
  import opened Order

  class Link {
    var next: Link?
    var prev: Link?

    constructor ()
      ensures next == null && prev == null
    {
      next, prev := null, null;
    }
  }

  /** A well-formed queue: the head `c[0]`, then the entries in order.  Each
    * `next` names the link after it, each `prev` the link before it, and the
    * head's `prev` the last link (itself, when the queue is empty). */
  ghost predicate Queue(c: seq<Link>)
    reads c
  {
    && |c| > 0
    && Distinct(c)
    && c[|c| - 1].next == null && c[0].prev == c[|c| - 1]
    && (forall i {:trigger c[i].next} :: 0 <= i < |c| - 1 ==> c[i].next == c[i + 1])
    && (forall i {:trigger c[i].prev} :: 0 < i < |c| ==> c[i].prev == c[i - 1])
  }

  /** Two queues without a link in common. */
  ghost predicate Apart(c1: seq<Link>, c2: seq<Link>) {
    forall k, l {:trigger c1[k], c2[l]} :: 0 <= k < |c1| && 0 <= l < |c2| ==> c1[k] != c2[l]
  }

  method Init(h: Link)
    modifies h
    ensures Queue([h])
  {
    h.next := null;
    h.prev := h;
  }

  method First(h: Link, ghost c: seq<Link>) returns (r: Link?)
    requires Queue(c) && h == c[0]
    ensures r == if |c| == 1 then null else c[1]
  {
    r := h.next;
  }

  /** TAILQ_LAST: the last entry is read as a head, whose tqh_last is the
    * address of the pointer to that same entry. */
  method Last(h: Link, ghost c: seq<Link>) returns (r: Link?)
    requires Queue(c) && h == c[0]
    ensures r == if |c| == 1 then null else c[|c| - 1]
  {
    assert |c| > 1 ==> c[|c| - 2].next == c[|c| - 1];
    r := h.prev.prev.next;
  }

  method Next(e: Link, ghost c: seq<Link>, ghost i: nat) returns (r: Link?)
    requires Queue(c) && 0 < i < |c| && c[i] == e
    ensures r == if i + 1 == |c| then null else c[i + 1]
  {
    r := e.next;
  }

  /** TAILQ_PREV: the entry before `e` is read as a head in the same way. */
  method Prev(e: Link, ghost c: seq<Link>, ghost i: nat) returns (r: Link?)
    requires Queue(c) && 0 < i < |c| && c[i] == e
    ensures r == if i == 1 then null else c[i - 1]
  {
    assert i > 1 ==> c[i - 1].prev == c[i - 2] && c[i - 2].next == c[i - 1];
    r := e.prev.prev.next;
  }

  method InsertHead(h: Link, e: Link, ghost c: seq<Link>)
    requires Queue(c) && h == c[0] && e !in c
    modifies e, c
    ensures Queue([h, e] + c[1..])
  {
    e.next := h.next;
    if e.next != null {
      h.next.prev := e;
    } else {
      h.prev := e;
    }
    h.next := e;
    e.prev := h;
    InsertedMembers(c, 1, e);
    assert [h, e] + c[1..] == Inserted(c, 1, e);
  }

  method InsertTail(h: Link, e: Link, ghost c: seq<Link>)
    requires Queue(c) && h == c[0] && e !in c
    modifies e, c
    ensures Queue(c + [e])
  {
    e.next := null;
    e.prev := h.prev;
    h.prev.next := e;
    h.prev := e;
  }

  method InsertAfter(h: Link, l: Link, e: Link, ghost c: seq<Link>, ghost i: nat)
    requires Queue(c) && h == c[0] && e !in c
    requires 0 < i < |c| && c[i] == l
    modifies e, c
    ensures Queue(Inserted(c, i + 1, e))
  {
    InsertedMembers(c, i + 1, e);
    e.next := l.next;
    assert e.next == if i + 1 == |c| then null else c[i + 1];
    if e.next != null {
      e.next.prev := e;
    } else {
      h.prev := e;
    }
    l.next := e;
    e.prev := l;
  }

  /** TAILQ_INSERT_BEFORE is not given the head. */
  method InsertBefore(l: Link, e: Link, ghost c: seq<Link>, ghost i: nat)
    requires Queue(c) && e !in c
    requires 0 < i < |c| && c[i] == l
    modifies e, c
    ensures Queue(Inserted(c, i, e))
  {
    InsertedMembers(c, i, e);
    e.prev := l.prev;
    e.next := l;
    l.prev.next := e;
    l.prev := e;
  }

  /** TAILQ_REMOVE leaves the removed entry's own pointers as they were. */
  method Remove(h: Link, e: Link, ghost c: seq<Link>, ghost i: nat)
    requires Queue(c) && h == c[0]
    requires 0 < i < |c| && c[i] == e
    modifies c
    ensures Queue(Removed(c, i))
    ensures e.next == old(e.next) && e.prev == old(e.prev)
  {
    if e.next != null {
      e.next.prev := e.prev;
    } else {
      h.prev := e.prev;
    }
    e.prev.next := e.next;
  }

  method Replace(h: Link, e: Link, e2: Link, ghost c: seq<Link>, ghost i: nat)
    requires Queue(c) && h == c[0] && e2 !in c
    requires 0 < i < |c| && c[i] == e
    modifies e2, c
    ensures Queue(c[i := e2])
  {
    e2.next := e.next;
    if e2.next != null {
      e2.next.prev := e2;
    } else {
      h.prev := e2;
    }
    e2.prev := e.prev;
    e2.prev.next := e2;
  }

  /** TAILQ_SWAP: `second` must follow `first`. */
  method SwapAdjacent(h: Link, first: Link, second: Link, ghost c: seq<Link>, ghost i: nat)
    requires Queue(c) && h == c[0]
    requires 0 < i < |c| - 1 && c[i] == first && c[i + 1] == second
    modifies c
    ensures Queue(c[i := second][i + 1 := first])
  {
    first.prev.next := second;
    second.prev := first.prev;
    first.prev := second;
    first.next := second.next;
    if second.next != null {
      second.next.prev := first;
    }
    second.next := first;
    if h.prev == second {
      h.prev := first;
    }
  }

  /** The queue without `i` and `j`, and then with `c[i]` where `c[j]` was. */
  ghost function WithoutBoth(c: seq<Link>, i: nat, j: nat): seq<Link>
    requires i < |c| && j < |c| && i != j
  {
    Removed(Removed(c, i), if i < j then j - 1 else j)
  }

  lemma WithoutBothAt(c: seq<Link>, i: nat, j: nat)
    requires Distinct(c) && 0 < i < |c| && 0 < j < |c| && i != j
    ensures var d := WithoutBoth(c, i, j);
            && |d| == |c| - 2 && d[0] == c[0] && c[i] !in d && c[j] !in d && c[i] != c[j]
            && (forall k {:trigger d[k]} :: 0 <= k < |d| ==> d[k] in c)
            && (forall k {:trigger c[k]} :: 0 <= k < |c| && k != i && k != j ==>
                  d[k - (if i < k then 1 else 0) - (if j < k then 1 else 0)] == c[k])
  {
  }

  lemma InsertedIs(e: seq<Link>, i: nat, x: Link, t: seq<Link>)
    requires |t| == |e| + 1 && i < |t| && t[i] == x
    requires forall k :: 0 <= k < |t| && k != i ==> e[if k < i then k else k - 1] == t[k]
    ensures Inserted(e, i, x) == t
  {
  }

  /** Putting each entry in after the other's old predecessor writes each at
    * the other's old position. */
  lemma SwapByMoves(c: seq<Link>, i: nat, j: nat)
    requires Distinct(c) && 0 < i < |c| && 0 < j < |c| && i != j && i != j + 1 && j != i + 1
    ensures var d, j1 := WithoutBoth(c, i, j), if i < j then j - 1 else j;
            && d[j1 - 1] == c[j - 1] && Inserted(d, j1, c[i])[i - 1] == c[i - 1]
            && Inserted(Inserted(d, j1, c[i]), i, c[j]) == c[i := c[j]][j := c[i]]
  {
    WithoutBothAt(c, i, j);
    var d, j1 := WithoutBoth(c, i, j), if i < j then j - 1 else j;
    var e, t := Inserted(d, j1, c[i]), c[i := c[j]][j := c[i]];
    assert c[j - 1] == d[j1 - 1];
    assert |e| == |c| - 1;
    forall k | 0 <= k < |c| && k != i ensures e[if k < i then k else k - 1] == t[k] {
    }
    InsertedIs(e, i, c[j], t);
  }

  lemma MoveAcross(c: seq<Link>, i: nat, e: Link)
    requires 0 < i < |c|
    ensures Removed(c, i)[i - 1] == c[i - 1]
    ensures Inserted(Removed(c, i), i, e) == c[i := e]
    ensures i == 1 ==> [c[0], e] + Removed(c, i)[1..] == c[i := e]
  {
  }

  /** Reaching an entry after its predecessor, or at the head when it has none:
    * how con_swap puts an entry back. */
  method InsertBehind(h: Link, previous: Link?, e: Link, ghost c: seq<Link>, ghost i: nat)
    requires Queue(c) && h == c[0] && e !in c
    requires 0 < i <= |c| && previous == if i == 1 then null else c[i - 1]
    modifies e, c
    ensures Queue(Inserted(c, i, e))
  {
    if previous == null {
      InsertHead(h, e, c);
      assert [h, e] + c[1..] == Inserted(c, i, e);
    } else {
      InsertAfter(h, previous, e, c, i - 1);
    }
  }

  /** Both entries taken out, each of its own list. */
  method RemoveEach(h1: Link, h2: Link, first: Link, second: Link,
                    ghost c1: seq<Link>, ghost i: nat, ghost c2: seq<Link>, ghost j: nat)
    requires Queue(c1) && h1 == c1[0] && 0 < i < |c1| && c1[i] == first
    requires Queue(c2) && h2 == c2[0] && 0 < j < |c2| && c2[j] == second
    requires Apart(c1, c2)
    modifies c1, c2
    ensures Queue(Removed(c1, i)) && Queue(Removed(c2, j))
  {
    Remove(h1, first, c1, i);
    Remove(h2, second, c2, j);
  }

  lemma RemovedApart(c1: seq<Link>, i: nat, c2: seq<Link>, j: nat)
    requires Distinct(c1) && Distinct(c2) && i < |c1| && j < |c2| && Apart(c1, c2)
    ensures Apart(Removed(c1, i), Removed(c2, j)) && Apart(Removed(c2, j), Removed(c1, i)) && c1[i] != c2[j]
    ensures c1[i] !in Removed(c1, i) && c1[i] !in Removed(c2, j)
    ensures c2[j] !in Removed(c1, i) && c2[j] !in Removed(c2, j)
  {
    var d1, d2 := Removed(c1, i), Removed(c2, j);
    forall k | 0 <= k < |d1| ensures d1[k] == c1[if k < i then k else k + 1] {
    }
    forall k | 0 <= k < |d2| ensures d2[k] == c2[if k < j then k else k + 1] {
    }
  }

  /** Both entries put back, each into its own list. */
  method PutBack(h1: Link, previous1: Link?, e1: Link, ghost c1: seq<Link>, ghost i: nat,
                 h2: Link, previous2: Link?, e2: Link, ghost c2: seq<Link>, ghost j: nat)
    requires Queue(c1) && h1 == c1[0] && e1 !in c1
    requires 0 < i <= |c1| && previous1 == if i == 1 then null else c1[i - 1]
    requires Queue(c2) && h2 == c2[0] && e2 !in c2
    requires Apart(c1, c2) && e1 !in c2 && e2 !in c1 && e1 != e2
    requires 0 < j <= |c2| && previous2 == if j == 1 then null else c2[j - 1]
    modifies e1, e2, c1, c2
    ensures Queue(Inserted(c1, i, e1)) && Queue(Inserted(c2, j, e2))
  {
    InsertBehind(h1, previous1, e1, c1, i);
    InsertBehind(h2, previous2, e2, c2, j);
  }

  /** Both entries put back into one list, `e1` first. */
  method PutBackWithin(h: Link, previous1: Link?, e1: Link, previous2: Link?, e2: Link,
                       ghost c: seq<Link>, ghost i: nat, ghost j: nat)
    requires Queue(c) && h == c[0] && e1 !in c && e2 !in c && e1 != e2
    requires 0 < i <= |c| && previous1 == if i == 1 then null else c[i - 1]
    requires 0 < j <= |c| + 1 && previous2 == if j == 1 then null else Inserted(c, i, e1)[j - 1]
    modifies e1, e2, c
    ensures Queue(Inserted(Inserted(c, i, e1), j, e2))
  {
    InsertBehind(h, previous1, e1, c, i);
    InsertBehind(h, previous2, e2, Inserted(c, i, e1), j);
  }

  method RemoveBoth(h: Link, first: Link, second: Link, ghost c: seq<Link>, ghost i: nat, ghost j: nat)
    requires Queue(c) && h == c[0] && i != j
    requires 0 < i < |c| && c[i] == first && 0 < j < |c| && c[j] == second
    modifies c
    ensures Queue(WithoutBoth(c, i, j))
  {
    Remove(h, first, c, i);
    Remove(h, second, Removed(c, i), if i < j then j - 1 else j);
  }

  method SwapApart(h: Link, first: Link, second: Link, firstPrev: Link?, secondPrev: Link?,
                   ghost c: seq<Link>, ghost i: nat, ghost j: nat)
    requires Queue(c) && h == c[0] && i != j && i != j + 1 && j != i + 1
    requires 0 < i < |c| && c[i] == first && firstPrev == if i == 1 then null else c[i - 1]
    requires 0 < j < |c| && c[j] == second && secondPrev == if j == 1 then null else c[j - 1]
    modifies c
    ensures Queue(c[i := second][j := first])
  {
    ghost var j1 := if i < j then j - 1 else j;
    WithoutBothAt(c, i, j);
    SwapByMoves(c, i, j);
    RemoveBoth(h, first, second, c, i, j);
    PutBackWithin(h, secondPrev, first, firstPrev, second, WithoutBoth(c, i, j), j1, i);
  }

  /** SWAP_CONS_IN_TREE of con_swap when both entries are in one list: they
    * trade places, adjacent or not, in either order, and nothing else moves. */
  method SwapWithin(h: Link, first: Link, second: Link, ghost c: seq<Link>, ghost i: nat, ghost j: nat)
    requires Queue(c) && h == c[0] && i != j
    requires 0 < i < |c| && c[i] == first
    requires 0 < j < |c| && c[j] == second
    modifies c
    ensures Queue(Exchanged(c, first, second))
  {
    ExchangedAt(c, i, j);
    var firstPrev := Prev(first, c, i);
    var secondPrev := Prev(second, c, j);
    if secondPrev == first {
      SwapAdjacent(h, first, second, c, i);
    } else if firstPrev == second {
      SwapAdjacent(h, second, first, c, j);
      assert c[j := first][i := second] == c[i := second][j := first];
    } else {
      SwapApart(h, first, second, firstPrev, secondPrev, c, i, j);
    }
  }

  /** The same macro across two lists. */
  method SwapAcross(h1: Link, h2: Link, first: Link, second: Link,
                    ghost c1: seq<Link>, ghost i: nat, ghost c2: seq<Link>, ghost j: nat)
    requires Queue(c1) && h1 == c1[0] && 0 < i < |c1| && c1[i] == first
    requires Queue(c2) && h2 == c2[0] && 0 < j < |c2| && c2[j] == second
    requires Apart(c1, c2)
    modifies c1, c2
    ensures Queue(Exchanged(c1, first, second)) && Queue(Exchanged(c2, first, second))
  {
    assert second !in c1 && first !in c2;
    ExchangedFor(c1, i, second);
    ExchangedFor(c2, j, first);
    var firstPrev := Prev(first, c1, i);
    var secondPrev := Prev(second, c2, j);
    RemoveEach(h1, h2, first, second, c1, i, c2, j);
    RemovedApart(c1, i, c2, j);
    MoveAcross(c1, i, second);
    MoveAcross(c2, j, first);
    PutBack(h2, secondPrev, first, Removed(c2, j), j, h1, firstPrev, second, Removed(c1, i), i);
  }

  /** The macro, whichever way its entries lie. */
  method SwapConsInTree(h1: Link, h2: Link, first: Link, second: Link,
                        ghost c1: seq<Link>, ghost i: nat, ghost c2: seq<Link>, ghost j: nat)
    requires Queue(c1) && h1 == c1[0] && 0 < i < |c1| && c1[i] == first
    requires Queue(c2) && h2 == c2[0] && 0 < j < |c2| && c2[j] == second
    requires first != second && (c1 == c2 || Apart(c1, c2))
    modifies c1, c2
    ensures Queue(Exchanged(c1, first, second)) && Queue(Exchanged(c2, first, second))
  {
    if h1 == h2 {
      SwapWithin(h1, first, second, c1, i, j);
    } else {
      SwapAcross(h1, h2, first, second, c1, i, c2, j);
    }
  }
}
