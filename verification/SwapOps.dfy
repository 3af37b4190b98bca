/** con_swap on the heap: the refusals and the exchange. */
module SwapOps {
  import opened Order
  import opened Containers
  import FocusOps
  import opened Swapping

  lemma AboveSelf(f: Forest, c: Con, a: Con)
    requires Acyclic(f) && c in f && Attached(f, c)
    ensures Inside(f, f[c].parent, a) ==> c != a
  {
    if c == a && Inside(f, f[c].parent, a) { InsideIsDeeper(f, Depths(f), f[c].parent, c); }
  }

  /** con_has_parent: a proper ancestor. */
  method ConHasParent(con: Con, parent: Con, ghost cons: set<Con>) returns (r: bool)
    requires con in cons && Acyclic(View(cons)) && FocusOps.Topped(View(cons), Line(View(cons), con))
    ensures r <==> con != parent && Inside(View(cons), con, parent)
    decreases Depths(View(cons))[con]
  {
    ghost var f := View(cons);
    var current := con.parent;
    if current == null {
      return false;
    }
    assert Attached(f, con);
    InsideUnfolds(f, con, parent);
    AboveSelf(f, con, parent);
    if current == parent {
      return true;
    }
    assert Line(f, con)[1..] == Line(f, current);
    r := ConHasParent(current, parent, cons);
  }

  /** Lists elsewhere hold neither of the two. */
  lemma ElsewhereSame(f: Forest, a: Con, b: Con, q: Con)
    requires CanSwap(f, a, b) && q in f
    ensures q != f[a].parent && q != f[b].parent ==>
            Exchanged(f[q].nodes, a, b) == f[q].nodes && Exchanged(f[q].focus, a, b) == f[q].focus
    ensures f[a].parent != a && f[b].parent != b && f[a].parent != b && f[b].parent != a
  {
    if q != f[a].parent && q != f[b].parent {
      assert OwnLists(f[q]) && a !in f[q].focus && b !in f[q].focus;
    }
    NotOwnChild(f, a);
    NotOwnChild(f, b);
    InsideUnfolds(f, a, b);
    InsideUnfolds(f, b, a);
  }

  // ---------------------------------------------------------------- SWAP_CONS_IN_TREE

  /** TAILQ_PREV */
  function Previous(s: seq<Con>, x: Con): Con?
    requires x in s
  {
    var i := IndexOf(s, x);
    if i == 0 then null else s[i - 1]
  }

  /** TAILQ_INSERT_AFTER, or TAILQ_INSERT_HEAD when there is nothing before. */
  function PutBehind(s: seq<Con>, previous: Con?, x: Con): seq<Con>
    requires previous != null ==> previous in s
  {
    if previous == null then [x] + s else Inserted(s, IndexOf(s, previous) + 1, x)
  }

  lemma IndexAt(s: seq<Con>, i: nat)
    requires Distinct(s) && i < |s|
    ensures IndexOf(s, s[i]) == i && Without(s, s[i]) == Removed(s, i)
  {
  }

  lemma PutAt(s: seq<Con>, k: nat, previous: Con?, x: Con)
    requires Distinct(s) && k <= |s| && previous == if k == 0 then null else s[k - 1]
    ensures (previous != null ==> previous in s) && PutBehind(s, previous, x) == Inserted(s, k, x)
  {
    if k > 0 { IndexAt(s, k - 1); }
  }

  /** The list with `s[j]` taken out and `s[i]` in its place. */
  function Halfway(s: seq<Con>, i: nat, j: nat): seq<Con>
    requires i < |s| && j < |s|
  {
    Removed(s[j := s[i]], i)
  }

  lemma BothOut(s: seq<Con>, i: nat, j: nat)
    requires Distinct(s) && i < |s| && j < |s| && i != j
    ensures s[j] in Without(s, s[i]) && Distinct(Without(Without(s, s[i]), s[j]))
    ensures Without(Without(s, s[i]), s[j]) == Removed(Removed(s, i), if i < j then j - 1 else j)
  {
    IndexAt(s, i);
    WithoutMembers(s, s[i]);
    IndexAt(Removed(s, i), if i < j then j - 1 else j);
    WithoutMembers(Removed(s, i), s[j]);
  }

  /** Each goes behind what was before the other. */
  lemma FirstIn(s: seq<Con>, i: nat, j: nat)
    requires Distinct(s) && i < |s| && j < |s| && i != j && i != j + 1 && j != i + 1
    ensures var r := Removed(Removed(s, i), if i < j then j - 1 else j);
            Inserted(r, if i < j then j - 1 else j, s[i]) == Halfway(s, i, j)
    ensures var r, k := Removed(Removed(s, i), if i < j then j - 1 else j), if i < j then j - 1 else j;
            k > 0 ==> r[k - 1] == s[j - 1]
  {
  }

  lemma SecondIn(s: seq<Con>, i: nat, j: nat)
    requires Distinct(s) && i < |s| && j < |s| && i != j && i != j + 1 && j != i + 1
    ensures Distinct(Halfway(s, i, j)) && (i > 0 ==> Halfway(s, i, j)[i - 1] == s[i - 1])
    ensures Inserted(Halfway(s, i, j), i, s[j]) == s[i := s[j]][j := s[i]]
  {
  }

  lemma FirstMoves(s: seq<Con>, i: nat, j: nat)
    requires Distinct(s) && i < |s| && j < |s| && i != j && i != j + 1 && j != i + 1
    ensures s[j] in Without(s, s[i])
    ensures var r, previous := Without(Without(s, s[i]), s[j]), if j == 0 then null else s[j - 1];
            (previous != null ==> previous in r) && PutBehind(r, previous, s[i]) == Halfway(s, i, j)
  {
    BothOut(s, i, j);
    FirstIn(s, i, j);
    PutAt(Without(Without(s, s[i]), s[j]), if i < j then j - 1 else j, if j == 0 then null else s[j - 1], s[i]);
  }

  lemma SecondMoves(s: seq<Con>, i: nat, j: nat)
    requires Distinct(s) && i < |s| && j < |s| && i != j && i != j + 1 && j != i + 1
    ensures var half, previous := Halfway(s, i, j), if i == 0 then null else s[i - 1];
            (previous != null ==> previous in half) && PutBehind(half, previous, s[j]) == Exchanged(s, s[i], s[j])
  {
    ExchangedAt(s, i, j);
    SecondIn(s, i, j);
    PutAt(Halfway(s, i, j), i, if i == 0 then null else s[i - 1], s[j]);
  }

  lemma ApartMoves(s: seq<Con>, x: Con, y: Con)
    requires Distinct(s) && x in s && y in s && x != y && Previous(s, y) != x && Previous(s, x) != y
    ensures y in Without(s, x) && (Previous(s, y) != null ==> Previous(s, y) in Without(Without(s, x), y))
    ensures var half := PutBehind(Without(Without(s, x), y), Previous(s, y), x);
            (Previous(s, x) != null ==> Previous(s, x) in half) &&
              PutBehind(half, Previous(s, x), y) == Exchanged(s, x, y)
  {
    var i, j := IndexOf(s, x), IndexOf(s, y);
    assert i != j + 1 && j != i + 1;
    FirstMoves(s, i, j);
    SecondMoves(s, i, j);
  }

  /** Across two lists. */
  lemma AcrossMoves(s: seq<Con>, x: Con, y: Con)
    requires Distinct(s) && x in s && y !in s
    ensures Previous(s, x) != null ==> Previous(s, x) in Without(s, x)
    ensures PutBehind(Without(s, x), Previous(s, x), y) == Exchanged(s, x, y) == Exchanged(s, y, x)
  {
    var i := IndexOf(s, x);
    WithoutMembers(s, x);
    ExchangedFor(s, i, y);
    PutAt(Removed(s, i), i, Previous(s, x), y);
  }

  /** TAILQ_SWAP: `y` follows `x`. */
  function Adjacent(s: seq<Con>, x: Con, y: Con): seq<Con>
    requires y in s && Previous(s, y) == x
  {
    var j := IndexOf(s, y);
    s[j - 1 := y][j := x]
  }

  lemma AdjacentMoves(s: seq<Con>, x: Con, y: Con)
    requires Distinct(s) && y in s && Previous(s, y) == x
    ensures Adjacent(s, x, y) == Exchanged(s, x, y) == Exchanged(s, y, x)
  {
    var j := IndexOf(s, y);
    ExchangedAt(s, j - 1, j);
  }

  /** Two lists that hold the two containers, or one that holds both. */
  ghost predicate Holding(one: seq<Con>, other: seq<Con>, same: bool, x: Con, y: Con) {
    && Distinct(one) && Distinct(other) && x in one && y in other && x != y
    && if same then one == other else y !in one && x !in other
  }

  method SwapNodes(first: Con, second: Con, p1: Con, p2: Con)
    requires Holding(p1.nodes, p2.nodes, p1 == p2, first, second)
    modifies p1`nodes, p2`nodes
    ensures p1.nodes == Exchanged(old(p1.nodes), first, second) && p2.nodes == Exchanged(old(p2.nodes), first, second)
  {
    var firstPrev := Previous(p1.nodes, first);
    var secondPrev := Previous(p2.nodes, second);
    if secondPrev == first {
      AdjacentMoves(p1.nodes, first, second);
      p1.nodes := Adjacent(p1.nodes, first, second);
    } else if firstPrev == second {
      AdjacentMoves(p1.nodes, second, first);
      p1.nodes := Adjacent(p1.nodes, second, first);
    } else {
      if p1 == p2 {
        ApartMoves(p1.nodes, first, second);
      } else {
        AcrossMoves(p1.nodes, first, second);
        AcrossMoves(p2.nodes, second, first);
      }
      p1.nodes := Without(p1.nodes, first);
      p2.nodes := Without(p2.nodes, second);
      p2.nodes := PutBehind(p2.nodes, secondPrev, first);
      p1.nodes := PutBehind(p1.nodes, firstPrev, second);
    }
  }

  method SwapFocused(first: Con, second: Con, p1: Con, p2: Con)
    requires Holding(p1.focus, p2.focus, p1 == p2, first, second)
    modifies p1`focus, p2`focus
    ensures p1.focus == Exchanged(old(p1.focus), first, second) && p2.focus == Exchanged(old(p2.focus), first, second)
  {
    var firstPrev := Previous(p1.focus, first);
    var secondPrev := Previous(p2.focus, second);
    if secondPrev == first {
      AdjacentMoves(p1.focus, first, second);
      p1.focus := Adjacent(p1.focus, first, second);
    } else if firstPrev == second {
      AdjacentMoves(p1.focus, second, first);
      p1.focus := Adjacent(p1.focus, second, first);
    } else {
      if p1 == p2 {
        ApartMoves(p1.focus, first, second);
      } else {
        AcrossMoves(p1.focus, first, second);
        AcrossMoves(p2.focus, second, first);
      }
      p1.focus := Without(p1.focus, first);
      p2.focus := Without(p2.focus, second);
      p2.focus := PutBehind(p2.focus, secondPrev, first);
      p1.focus := PutBehind(p1.focus, firstPrev, second);
    }
  }

  lemma BothHold(f: Forest, a: Con, b: Con)
    requires CanSwap(f, a, b)
    ensures var p, q := f[a].parent, f[b].parent;
            Holding(f[p].nodes, f[q].nodes, p == q, a, b) && Holding(f[p].focus, f[q].focus, p == q, a, b)
  {
    var p, q := f[a].parent, f[b].parent;
    assert OwnLists(f[p]) && OwnLists(f[q]) && EdgeAgrees(f, p, a) && EdgeAgrees(f, q, b);
    assert b in f[p].focus ==> EdgeAgrees(f, p, b);
    assert a in f[q].focus ==> EdgeAgrees(f, q, a);
  }

  lemma ParentsHold(first: Con, second: Con, cons: set<Con>)
    requires first in cons && second in cons && CanSwap(View(cons), first, second)
    ensures var p, q := first.parent, second.parent;
            && p != null && q != null && p in cons && q in cons
            && Holding(p.nodes, q.nodes, p == q, first, second) && Holding(p.focus, q.focus, p == q, first, second)
  {
    var f := View(cons);
    assert f[first] == Snapshot(first) && f[second] == Snapshot(second);
    BothHold(f, first, second);
    assert f[first.parent] == Snapshot(first.parent) && f[second.parent] == Snapshot(second.parent);
  }

  /** Both pairs of lists. */
  method SwapInTree(first: Con, second: Con, p1: Con, p2: Con)
    requires Holding(p1.nodes, p2.nodes, p1 == p2, first, second) &&
             Holding(p1.focus, p2.focus, p1 == p2, first, second)
    modifies p1`nodes, p1`focus, p2`nodes, p2`focus
    ensures forall p :: p == p1 || p == p2 ==>
            p.nodes == Exchanged(old(p.nodes), first, second) && p.focus == Exchanged(old(p.focus), first, second)
  {
    SwapNodes(first, second, p1, p2);
    SwapFocused(first, second, p1, p2);
  }

  /** What the two containers hand to each other directly. */
  method SwapFields(first: Con, second: Con)
    requires first != second
    modifies first`parent, first`floating, first`rect, first`windowRect, first`percent
    modifies second`parent, second`floating, second`rect, second`windowRect, second`percent
    ensures Snapshot(first) == Moved(old(Snapshot(first)), old(Snapshot(second)))
    ensures Snapshot(second) == Moved(old(Snapshot(second)), old(Snapshot(first)))
  {
    first.parent, second.parent := second.parent, first.parent;
    first.floating, second.floating := second.floating, first.floating;
    first.rect, second.rect := second.rect, first.rect;
    first.windowRect, second.windowRect := second.windowRect, first.windowRect;
    first.percent, second.percent := second.percent, first.percent;
  }

  /** The forest between the two halves of the exchange. */
  ghost function ListsSwapped(f: Forest, a: Con, b: Con): Forest {
    map q | q in f :: f[q].(nodes := Exchanged(f[q].nodes, a, b), focus := Exchanged(f[q].focus, a, b))
  }

  lemma FromTwoParents(f: Forest, m: Forest, a: Con, b: Con)
    requires CanSwap(f, a, b) && m.Keys == f.Keys
    requires forall q :: q in f && q != f[a].parent && q != f[b].parent ==> m[q] == f[q]
    requires forall q :: q in f && (q == f[a].parent || q == f[b].parent) ==>
               m[q] == f[q].(nodes := Exchanged(f[q].nodes, a, b), focus := Exchanged(f[q].focus, a, b))
    ensures m == ListsSwapped(f, a, b)
  {
    forall q | q in f ensures m[q] == ListsSwapped(f, a, b)[q] {
      ElsewhereSame(f, a, b, q);
    }
  }

  method ExchangeLists(first: Con, second: Con, ghost cons: set<Con>)
    requires first in cons && second in cons && CanSwap(View(cons), first, second)
    modifies first.parent`nodes, first.parent`focus, second.parent`nodes, second.parent`focus
    ensures View(cons) == ListsSwapped(old(View(cons)), first, second)
  {
    ghost var f := View(cons);
    ParentsHold(first, second, cons);
    SwapInTree(first, second, first.parent, second.parent);
    FromTwoParents(f, View(cons), first, second);
  }

  lemma FromFields(f: Forest, m: Forest, a: Con, b: Con)
    requires a in f && b in f && a != b && m.Keys == f.Keys
    requires var l := ListsSwapped(f, a, b);
             && m[a] == Moved(l[a], l[b]) && m[b] == Moved(l[b], l[a])
             && (forall q :: q in f && q != a && q != b ==> m[q] == l[q])
    ensures m == Swap(f, a, b)
  {
  }

  method Exchange(first: Con, second: Con, ghost cons: set<Con>)
    requires first in cons && second in cons && CanSwap(View(cons), first, second)
    modifies first, second, first.parent, second.parent
    ensures View(cons) == Swap(old(View(cons)), first, second)
  {
    ghost var f := View(cons);
    ExchangeLists(first, second, cons);
    SwapFields(first, second);
    FromFields(f, View(cons), first, second);
  }

  /** The refusals of con_swap: only two distinct regular containers of which
    * neither is above the other can be swapped. */
  method Accepts(first: Con, second: Con, ghost cons: set<Con>) returns (ok: bool)
    requires first in cons && second in cons && WellFormed(View(cons))
    requires Attached(View(cons), first) && FocusOps.Topped(View(cons), Line(View(cons), first))
    requires Attached(View(cons), second) && FocusOps.Topped(View(cons), Line(View(cons), second))
    ensures ok <==> CanSwap(View(cons), first, second)
  {
    if first.ty != Plain {
      return false;
    }
    if second.ty != Plain {
      return false;
    }
    if first == second {
      return false;
    }
    var below := ConHasParent(first, second, cons);
    var above := ConHasParent(second, first, cons);
    ok := !below && !above;
  }
}
