/** con_get_fullscreen_con: a breadth-first search below a container. */
module FullscreenSearch {
  import opened Order
  import opened Containers
  import opened Urgency

  /** How far down a container is. */
  ghost function Level(f: Forest, x: Con): nat
    requires Acyclic(f) && x in f
  {
    |Line(f, x)|
  }

  ghost predicate Hit(f: Forest, top: Con, mode: FullscreenMode, x: Con)
    requires Acyclic(f)
  {
    x in f && StrictlyInside(f, x, top) && f[x].fullscreen == mode
  }

  ghost predicate NoHit(f: Forest, top: Con, mode: FullscreenMode)
    requires Acyclic(f)
  {
    forall x :: x in f ==> !Hit(f, top, mode, x)
  }

  function Children(n: Node): seq<Con> {
    n.nodes + n.floats
  }

  lemma ChildIs(f: Forest, p: Con, c: Con)
    requires WellFormed(f) && p in f && c in Children(f[p])
    ensures c in f[p].focus && c in f && Attached(f, c) && f[c].parent == p && Level(f, c) == Level(f, p) + 1
  {
    assert OwnLists(f[p]) && c in f[p].focus && EdgeAgrees(f, p, c);
  }

  /** Queued and finished containers. */
  ghost predicate Frontier(f: Forest, top: Con, queue: seq<Con>, done: set<Con>)
    requires Acyclic(f)
  {
    && done <= f.Keys && Distinct(queue)
    && (forall i {:trigger queue[i]} :: 0 <= i < |queue| ==>
          queue[i] in f && queue[i] !in done && Inside(f, queue[i], top)
          && (queue[i] == top || (Attached(f, queue[i]) && f[queue[i]].parent in done)))
    && (forall x {:trigger Inside(f, x, top)} :: x in done ==>
       Inside(f, x, top) && (x == top || (Attached(f, x) && f[x].parent in done)))
  }

  ghost predicate UnderQueue(f: Forest, queue: seq<Con>, x: Con)
    requires Acyclic(f) && x in f
  {
    exists i :: 0 <= i < |queue| && Inside(f, x, queue[i])
  }

  /** Everything below `top` is finished or below something queued. */
  ghost predicate Covers(f: Forest, top: Con, queue: seq<Con>, done: set<Con>)
    requires Acyclic(f)
  {
    forall x {:trigger f[x]} :: x in f && Inside(f, x, top) ==> x in done || UnderQueue(f, queue, x)
  }

  ghost function Levels(f: Forest, queue: seq<Con>): (r: seq<nat>)
    requires Acyclic(f) && forall i {:trigger queue[i]} :: 0 <= i < |queue| ==> queue[i] in f
    ensures |r| == |queue|
  {
    seq(|queue|, i requires 0 <= i < |queue| => Level(f, queue[i]))
  }

  /** The queue goes down by at most one level, from front to back. */
  ghost predicate Levelled(levels: seq<nat>) {
    forall i, j :: 0 <= i < j < |levels| ==> levels[i] <= levels[j] <= levels[0] + 1
  }

  /** Serving the front of the queue. */
  ghost function Served(f: Forest, queue: seq<Con>): seq<Con>
    requires queue != [] && queue[0] in f
  {
    queue[1..] + Children(f[queue[0]])
  }

  lemma KidIsNew(f: Forest, top: Con, queue: seq<Con>, done: set<Con>, k: Con)
    requires WellFormed(f) && queue != [] && Frontier(f, top, queue, done) && k in f && Attached(f, k) &&
             f[k].parent == queue[0]
    ensures k !in done && k != queue[0] && k !in queue
  {
    var c := queue[0];
    NotOwnChild(f, c);
    assert k != top by {
      if k == top {
        InsideIsDeeper(f, Depths(f), c, k);
      }
    }
    forall x | x in done ensures x != k {
      assert Inside(f, x, top);
    }
    forall i {:trigger queue[i]} | 0 <= i < |queue| ensures queue[i] != k {
    }
  }

  lemma DistinctJoin<T>(s: seq<T>, t: seq<T>)
    requires Distinct(s) && Distinct(t) && forall x :: x in t ==> x !in s
    ensures Distinct(s + t)
  {
    forall i, j | 0 <= i < j < |s + t| ensures (s + t)[i] != (s + t)[j] {
      if i < |s| <= j { assert t[j - |s|] in t && s[i] in s; }
    }
  }

  lemma KidsDistinct(f: Forest, p: Con)
    requires WellFormed(f) && p in f
    ensures Distinct(Children(f[p]))
  {
    assert OwnLists(f[p]);
    forall x | x in f[p].nodes ensures x !in f[p].floats {
      assert x in f[p].focus && EdgeAgrees(f, p, x);
    }
    DistinctJoin(f[p].nodes, f[p].floats);
  }

  /** The children of the front of the queue, as they come to be queued. */
  lemma KidQueued(f: Forest, top: Con, queue: seq<Con>, done: set<Con>, k: Con)
    requires WellFormed(f) && queue != [] && Frontier(f, top, queue, done) && k in Children(f[queue[0]])
    ensures k in f && k !in done && k != queue[0] && k !in queue && Attached(f, k) && f[k].parent == queue[0] &&
            Inside(f, k, top)
  {
    assert OwnLists(f[queue[0]]);
    ChildIs(f, queue[0], k);
    InsideUnfolds(f, k, top);
    KidIsNew(f, top, queue, done, k);
  }

  lemma ServedQueued(f: Forest, top: Con, queue: seq<Con>, done: set<Con>, i: nat)
    requires WellFormed(f) && queue != [] && Frontier(f, top, queue, done) && i < |Served(f, queue)|
    ensures var x := Served(f, queue)[i];
            x in f && x !in done + {queue[0]} && Inside(f, x, top) &&
              (x == top || (Attached(f, x) && f[x].parent in done + {queue[0]}))
  {
    if i < |queue| - 1 {
      assert Served(f, queue)[i] == queue[i + 1];
    } else {
      KidQueued(f, top, queue, done, Children(f[queue[0]])[i - |queue| + 1]);
    }
  }

  lemma ServedDistinct(f: Forest, top: Con, queue: seq<Con>, done: set<Con>)
    requires WellFormed(f) && queue != [] && Frontier(f, top, queue, done)
    ensures Distinct(Served(f, queue))
  {
    var kids := Children(f[queue[0]]);
    forall k | k in kids ensures k !in queue[1..] {
      KidQueued(f, top, queue, done, k);
    }
    KidsDistinct(f, queue[0]);
    DistinctJoin(queue[1..], kids);
  }

  lemma ServedFrontier(f: Forest, top: Con, queue: seq<Con>, done: set<Con>)
    requires WellFormed(f) && queue != [] && Frontier(f, top, queue, done)
    ensures queue[0] in f && Frontier(f, top, Served(f, queue), done + {queue[0]})
  {
    ServedDistinct(f, top, queue, done);
    var next := Served(f, queue);
    forall i {:trigger next[i]} | 0 <= i < |next|
      ensures next[i] in f && next[i] !in done + {queue[0]} && Inside(f, next[i], top)
              && (next[i] == top || (Attached(f, next[i]) && f[next[i]].parent in done + {queue[0]}))
    {
      ServedQueued(f, top, queue, done, i);
    }
    forall x | x in done + {queue[0]}
      ensures Inside(f, x, top) && (x == top || (Attached(f, x) && f[x].parent in done + {queue[0]}))
    {
      assert x in done ==> Inside(f, x, top);
    }
  }

  lemma ServedCoversOne(f: Forest, queue: seq<Con>, x: Con)
    requires WellFormed(f) && queue != [] && queue[0] in f && x in f && x != queue[0] && UnderQueue(f, queue, x)
    ensures UnderQueue(f, Served(f, queue), x)
  {
    var c, next := queue[0], Served(f, queue);
    var i :| 0 <= i < |queue| && Inside(f, x, queue[i]);
    if i > 0 {
      assert next[i - 1] == queue[i];
    } else {
      var k := ChildAbove(f, x, c);
      assert OwnLists(f[c]) && EdgeAgrees(f, c, k) && k in Children(f[c]);
      var j := IndexOf(Children(f[c]), k);
      assert next[|queue| - 1 + j] == k;
    }
  }

  lemma ServedCovers(f: Forest, top: Con, queue: seq<Con>, done: set<Con>)
    requires WellFormed(f) && queue != [] && queue[0] in f && Covers(f, top, queue, done)
    ensures Covers(f, top, Served(f, queue), done + {queue[0]})
  {
    forall x | x in f && Inside(f, x, top) ensures x in done + {queue[0]} || UnderQueue(f, Served(f, queue), x) {
      if x !in done && x != queue[0] {
        ServedCoversOne(f, queue, x);
      }
    }
  }

  lemma NextLevels(levels: seq<nat>, kids: seq<nat>)
    requires levels != [] && Levelled(levels) && forall i :: 0 <= i < |kids| ==> kids[i] == levels[0] + 1
    ensures Levelled(levels[1..] + kids)
  {
  }

  lemma LevelsJoin(f: Forest, queue: seq<Con>, kids: seq<Con>)
    requires Acyclic(f) && queue != [] && (forall i {:trigger queue[i]} :: 0 <= i < |queue| ==> queue[i] in f)
    requires forall i {:trigger kids[i]} :: 0 <= i < |kids| ==> kids[i] in f
    ensures forall i {:trigger (queue[1..] + kids)[i]} :: 0 <= i < |queue[1..] + kids| ==> (queue[1..] + kids)[i] in f
    ensures Levels(f, queue[1..] + kids) == Levels(f, queue)[1..] + Levels(f, kids)
  {
  }

  lemma ServedLevelled(f: Forest, top: Con, queue: seq<Con>, done: set<Con>)
    requires WellFormed(f) && queue != [] && Frontier(f, top, queue, done) && Levelled(Levels(f, queue))
    requires queue[0] in f && Frontier(f, top, Served(f, queue), done + {queue[0]})
    ensures Levelled(Levels(f, Served(f, queue)))
  {
    var kids := Children(f[queue[0]]);
    forall i {:trigger kids[i]} | 0 <= i < |kids| ensures kids[i] in f && Level(f, kids[i]) == Level(f, queue[0]) + 1 {
      ChildIs(f, queue[0], kids[i]);
    }
    LevelsJoin(f, queue, kids);
    NextLevels(Levels(f, queue), Levels(f, kids));
  }

  lemma {:induction false} LevelInside(f: Forest, x: Con, a: Con)
    requires Acyclic(f) && x in f && Inside(f, x, a)
    ensures a in f && Level(f, a) <= Level(f, x)
    decreases Depths(f)[x]
  {
    if x != a {
      LevelInside(f, f[x].parent, a);
    }
  }

  // ---------------------------------------------------------------- the order of the search

  ghost predicate Searching(f: Forest, top: Con, queue: seq<Con>, done: set<Con>)
    requires WellFormed(f)
  {
    && Frontier(f, top, queue, done) && Covers(f, top, queue, done) && Levelled(Levels(f, queue))
  }

  lemma ServedSearching(f: Forest, top: Con, queue: seq<Con>, done: set<Con>)
    requires WellFormed(f) && queue != [] && Searching(f, top, queue, done)
    ensures queue[0] in f && queue[0] !in done && Searching(f, top, Served(f, queue), done + {queue[0]})
  {
    ServedFrontier(f, top, queue, done);
    ServedCovers(f, top, queue, done);
    ServedLevelled(f, top, queue, done);
  }

  lemma SearchStarts(f: Forest, con: Con)
    requires WellFormed(f) && con in f
    ensures Searching(f, con, [con], {})
  {
    assert Inside(f, con, con);
    forall x | x in f && Inside(f, x, con) ensures UnderQueue(f, [con], x) {
      assert Inside(f, x, [con][0]);
    }
  }

  /** What the search visits from here on, in its order. */
  ghost function Visits(f: Forest, top: Con, queue: seq<Con>, done: set<Con>): seq<Con>
    requires WellFormed(f) && Frontier(f, top, queue, done)
    decreases f.Keys - done
  {
    if queue == [] then []
    else
      ServedFrontier(f, top, queue, done);
      [queue[0]] + Visits(f, top, Served(f, queue), done + {queue[0]})
  }

  lemma VisitsFront(f: Forest, top: Con, queue: seq<Con>, done: set<Con>)
    requires WellFormed(f) && queue != [] && Frontier(f, top, queue, done)
    ensures queue[0] in f && queue[0] !in done && Inside(f, queue[0], top)
    ensures Frontier(f, top, Served(f, queue), done + {queue[0]})
    ensures Visits(f, top, queue, done) == [queue[0]] + Visits(f, top, Served(f, queue), done + {queue[0]})
  {
    ServedFrontier(f, top, queue, done);
  }

  /** Everything in the tree that is not finished yet. */
  lemma {:induction false} VisitsAll(f: Forest, top: Con, queue: seq<Con>, done: set<Con>, x: Con)
    requires WellFormed(f) && Searching(f, top, queue, done)
    ensures x in Visits(f, top, queue, done) <==> x in f && Inside(f, x, top) && x !in done
    decreases f.Keys - done
  {
    if queue == [] {
    } else {
      ServedSearching(f, top, queue, done);
      VisitsAll(f, top, Served(f, queue), done + {queue[0]}, x);
    }
  }

  /** The front is no deeper than anything visited later. */
  lemma FrontIsHighest(f: Forest, top: Con, queue: seq<Con>, done: set<Con>, x: Con)
    requires WellFormed(f) && queue != [] && Searching(f, top, queue, done) && x in f && Inside(f, x, top) && x !in done
    ensures queue[0] in f && Level(f, queue[0]) <= Level(f, x)
  {
    var i :| 0 <= i < |queue| && Inside(f, x, queue[i]);
    LevelInside(f, x, queue[i]);
    assert i > 0 ==> Levels(f, queue)[0] <= Levels(f, queue)[i];
  }

  /** No container twice, none before one that is less deep. */
  ghost predicate Descends(f: Forest, s: seq<Con>)
    requires Acyclic(f)
  {
    && (forall i {:trigger s[i]} :: 0 <= i < |s| ==> s[i] in f)
    && (forall i, j :: 0 <= i < j < |s| ==> s[i] != s[j] && Level(f, s[i]) <= Level(f, s[j]))
  }

  lemma DescendsFrom(f: Forest, x: Con, rest: seq<Con>)
    requires Acyclic(f) && x in f && Descends(f, rest) &&
             forall y :: y in rest ==> y in f && y != x && Level(f, x) <= Level(f, y)
    ensures Descends(f, [x] + rest)
  {
    var s := [x] + rest;
    forall i, j | 0 <= i < j < |s| ensures s[i] != s[j] && Level(f, s[i]) <= Level(f, s[j]) {
      assert s[j] == rest[j - 1] && (i > 0 ==> s[i] == rest[i - 1]);
    }
  }

  lemma {:induction false} VisitsDescend(f: Forest, top: Con, queue: seq<Con>, done: set<Con>)
    requires WellFormed(f) && Searching(f, top, queue, done)
    ensures Descends(f, Visits(f, top, queue, done))
    decreases f.Keys - done
  {
    if queue == [] {
    } else {
      ServedSearching(f, top, queue, done);
      var next, now := Served(f, queue), done + {queue[0]};
      VisitsDescend(f, top, next, now);
      forall y | y in Visits(f, top, next, now) ensures y in f && y != queue[0] && Level(f, queue[0]) <= Level(f, y) {
        VisitsAll(f, top, next, now, y);
        FrontIsHighest(f, top, queue, done, y);
      }
      DescendsFrom(f, queue[0], Visits(f, top, next, now));
    }
  }

  /** The containers of a tree in breadth-first order, tiling children before
    * floating ones. */
  ghost function BreadthFirst(f: Forest, top: Con): seq<Con>
    requires WellFormed(f) && top in f
  {
    SearchStarts(f, top);
    Visits(f, top, [top], {})
  }

  lemma BreadthFirstOrder(f: Forest, top: Con)
    requires WellFormed(f) && top in f
    ensures Descends(f, BreadthFirst(f, top)) && forall x :: x in BreadthFirst(f, top) <==> x in f && Inside(f, x, top)
  {
    SearchStarts(f, top);
    VisitsDescend(f, top, [top], {});
    forall x ensures x in BreadthFirst(f, top) <==> x in f && Inside(f, x, top) {
      VisitsAll(f, top, [top], {}, x);
    }
  }

  // ---------------------------------------------------------------- what it does not depend on

  /** The same tree, with the same lists of children. */
  ghost predicate SameChildren(f: Forest, g: Forest) {
    SameAncestry(f, g) && forall x {:trigger Children(g[x])} :: x in f ==> Children(g[x]) == Children(f[x])
  }

  lemma SameFrontier(f: Forest, g: Forest, top: Con, queue: seq<Con>, done: set<Con>)
    requires WellFormed(f) && WellFormed(g) && SameAncestry(f, g) && Frontier(f, top, queue, done)
    ensures Frontier(g, top, queue, done) && Levels(g, queue) == Levels(f, queue)
  {
    forall x | x in f ensures Line(g, x) == Line(f, x) {
      AncestryLine(f, g, x);
    }
    forall x | x in f ensures g[x].parent == f[x].parent && Attached(g, x) == Attached(f, x) {
      assert Attached(g, x) == Attached(f, x);
    }
    forall x | x in done ensures Inside(g, x, top) && (x == top || (Attached(g, x) && g[x].parent in done)) {
      assert Inside(f, x, top);
    }
  }

  lemma {:induction false} SameVisits(f: Forest, g: Forest, top: Con, queue: seq<Con>, done: set<Con>)
    requires WellFormed(f) && WellFormed(g) && SameChildren(f, g) && Frontier(f, top, queue, done) &&
             Frontier(g, top, queue, done)
    ensures Visits(g, top, queue, done) == Visits(f, top, queue, done)
    decreases f.Keys - done
  {
    if queue == [] {
    } else {
      VisitsFront(f, top, queue, done);
      VisitsFront(g, top, queue, done);
      assert Children(g[queue[0]]) == Children(f[queue[0]]);
      SameVisits(f, g, top, Served(f, queue), done + {queue[0]});
    }
  }

  lemma SameOrder(f: Forest, g: Forest, top: Con)
    requires WellFormed(f) && WellFormed(g) && SameChildren(f, g) && top in f
    ensures BreadthFirst(g, top) == BreadthFirst(f, top)
  {
    SearchStarts(f, top);
    SameFrontier(f, g, top, [top], {});
    SameVisits(f, g, top, [top], {});
  }

  // ---------------------------------------------------------------- the search

  ghost predicate HitAt(f: Forest, s: seq<Con>, top: Con, mode: FullscreenMode, x: Con, i: int)
    requires Acyclic(f)
  {
    0 <= i < |s| && s[i] == x && forall j :: 0 <= j < i ==> !Hit(f, top, mode, s[j])
  }

  /** The first container with the mode in that order. */
  ghost predicate FirstHit(f: Forest, top: Con, mode: FullscreenMode, x: Con)
    requires Acyclic(f)
  {
    && Hit(f, top, mode, x) && WellFormed(f) && top in f
    && exists i :: HitAt(f, BreadthFirst(f, top), top, mode, x, i)
  }

  /** No container with the mode is less deep. */
  lemma FirstHitShallowest(f: Forest, top: Con, mode: FullscreenMode, x: Con)
    requires Acyclic(f) && FirstHit(f, top, mode, x)
    ensures forall y :: y in f && Hit(f, top, mode, y) ==> Level(f, x) <= Level(f, y)
  {
    var s := BreadthFirst(f, top);
    BreadthFirstOrder(f, top);
    var i :| HitAt(f, s, top, mode, x, i);
    forall y | y in f && Hit(f, top, mode, y) ensures Level(f, x) <= Level(f, y) {
      var j := IndexOf(s, y);
      assert j >= i;
    }
  }

  /** There is only one. */
  lemma FirstHitUnique(f: Forest, top: Con, mode: FullscreenMode, x: Con, y: Con)
    requires Acyclic(f) && FirstHit(f, top, mode, x) && FirstHit(f, top, mode, y)
    ensures x == y
  {
    var s := BreadthFirst(f, top);
    var i :| HitAt(f, s, top, mode, x, i);
    var j :| HitAt(f, s, top, mode, y, j);
  }

  lemma {:induction false} FirstFrom(f: Forest, s: seq<Con>, top: Con, mode: FullscreenMode, i: nat, j: nat)
    returns (k: nat)
    requires Acyclic(f) && i <= j < |s| && Hit(f, top, mode, s[j]) &&
             forall m :: 0 <= m < i ==> !Hit(f, top, mode, s[m])
    ensures k <= j && Hit(f, top, mode, s[k]) && HitAt(f, s, top, mode, s[k], k)
    decreases j - i
  {
    if Hit(f, top, mode, s[i]) {
      k := i;
    } else {
      k := FirstFrom(f, s, top, mode, i + 1, j);
    }
  }

  /** Where there is a hit, there is a first one. */
  lemma SomeFirstHit(f: Forest, top: Con, mode: FullscreenMode)
    requires WellFormed(f) && top in f && !NoHit(f, top, mode)
    ensures exists x :: x in f && FirstHit(f, top, mode, x)
  {
    var s := BreadthFirst(f, top);
    BreadthFirstOrder(f, top);
    var y :| y in f && Hit(f, top, mode, y);
    var k := FirstFrom(f, s, top, mode, 0, IndexOf(s, y));
    assert FirstHit(f, top, mode, s[k]);
  }

  /** What con_get_fullscreen_con returns. */
  ghost function FirstFound(f: Forest, top: Con, mode: FullscreenMode): (r: Con?)
    requires WellFormed(f) && top in f
    ensures r == null <==> NoHit(f, top, mode)
    ensures r != null ==> r in f && FirstHit(f, top, mode, r)
  {
    if NoHit(f, top, mode) then null
    else
      SomeFirstHit(f, top, mode);
      var x :| x in f && FirstHit(f, top, mode, x);
      x
  }

  /** Appending the children of the front container. */
  method Serve(current: Con, rest: seq<Con>) returns (queue: seq<Con>)
    ensures queue == rest + Children(Snapshot(current))
  {
    queue := rest;
    var i := 0;
    while i < |current.nodes|
      invariant i <= |current.nodes| && queue == rest + current.nodes[..i]
    {
      queue := queue + [current.nodes[i]];
      i := i + 1;
    }
    i := 0;
    while i < |current.floats|
      invariant i <= |current.floats| && queue == rest + current.nodes + current.floats[..i]
    {
      queue := queue + [current.floats[i]];
      i := i + 1;
    }
  }

  /** `seen` has been visited in vain, and the rest is to come. */
  ghost predicate Pending(f: Forest, top: Con, mode: FullscreenMode, queue: seq<Con>, done: set<Con>, seen: seq<Con>)
    requires WellFormed(f) && top in f
  {
    && Frontier(f, top, queue, done) && BreadthFirst(f, top) == seen + Visits(f, top, queue, done)
    && forall x :: x in seen ==> !Hit(f, top, mode, x)
  }

  lemma MoveOver<T>(seen: seq<T>, c: T, rest: seq<T>)
    ensures seen + ([c] + rest) == (seen + [c]) + rest
  {
  }

  lemma FrontFound(f: Forest, s: seq<Con>, top: Con, mode: FullscreenMode, c: Con, seen: seq<Con>, rest: seq<Con>)
    requires Acyclic(f) && s == (seen + [c]) + rest && forall x :: x in seen ==> !Hit(f, top, mode, x)
    ensures HitAt(f, s, top, mode, c, |seen|)
  {
    forall j | 0 <= j < |seen| ensures !Hit(f, top, mode, s[j]) {
      assert s[j] == seen[j];
    }
  }

  lemma FrontMissed(f: Forest, top: Con, mode: FullscreenMode, c: Con, seen: seq<Con>)
    requires Acyclic(f) && !Hit(f, top, mode, c) && forall x :: x in seen ==> !Hit(f, top, mode, x)
    ensures forall x :: x in seen + [c] ==> !Hit(f, top, mode, x)
  {
  }

  lemma FrontHit(f: Forest, top: Con, mode: FullscreenMode, queue: seq<Con>, done: set<Con>, seen: seq<Con>)
    requires WellFormed(f) && top in f && queue != [] && Pending(f, top, mode, queue, done, seen)
    requires queue[0] in f && queue[0] != top && f[queue[0]].fullscreen == mode
    ensures FirstHit(f, top, mode, queue[0])
  {
    var c, rest := queue[0], Visits(f, top, queue, done)[1..];
    VisitsFront(f, top, queue, done);
    assert Hit(f, top, mode, c);
    MoveOver(seen, c, rest);
    FrontFound(f, BreadthFirst(f, top), top, mode, c, seen, rest);
  }

  /** Looking at the front: it is the answer, or one more that is not. */
  lemma FrontSeen(f: Forest, top: Con, mode: FullscreenMode, queue: seq<Con>, done: set<Con>, seen: seq<Con>)
    requires WellFormed(f) && top in f && queue != [] && Pending(f, top, mode, queue, done, seen)
    ensures var c := queue[0];
            && c in f && c !in done
            && if c != top && f[c].fullscreen == mode then FirstHit(f, top, mode, c)
               else Pending(f, top, mode, Served(f, queue), done + {c}, seen + [c])
  {
    var c := queue[0];
    VisitsFront(f, top, queue, done);
    if c != top && f[c].fullscreen == mode {
      FrontHit(f, top, mode, queue, done, seen);
    } else {
      var rest := Visits(f, top, Served(f, queue), done + {c});
      MoveOver(seen, c, rest);
      FrontMissed(f, top, mode, c, seen);
      assert BreadthFirst(f, top) == (seen + [c]) + rest;
    }
  }

  lemma NothingFound(f: Forest, top: Con, mode: FullscreenMode, done: set<Con>, seen: seq<Con>)
    requires WellFormed(f) && top in f && Pending(f, top, mode, [], done, seen)
    ensures NoHit(f, top, mode)
  {
    BreadthFirstOrder(f, top);
    assert BreadthFirst(f, top) == seen;
    forall x | x in f ensures !Hit(f, top, mode, x) {
      assert x in seen <==> Inside(f, x, top);
    }
  }

  /** The body of the search loop: the front is the answer, or it makes way for
    * its children. */
  method Visit(con: Con, mode: FullscreenMode, queue: seq<Con>, ghost f: Forest, ghost done: set<Con>,
               ghost seen: seq<Con>)
    returns (found: bool, next: seq<Con>)
    requires WellFormed(f) && con in f && queue != [] && queue[0] in f && f[queue[0]] == Snapshot(queue[0])
    requires Pending(f, con, mode, queue, done, seen)
    ensures queue[0] !in done
    ensures found ==> FirstHit(f, con, mode, queue[0])
    ensures !found ==> Pending(f, con, mode, next, done + {queue[0]}, seen + [queue[0]])
  {
    FrontSeen(f, con, mode, queue, done, seen);
    var current := queue[0];
    found := current != con && current.fullscreen == mode;
    if found {
      next := [];
    } else {
      next := Serve(current, queue[1..]);
    }
  }

  lemma QueueKnown(f: Forest, con: Con, queue: seq<Con>, done: set<Con>)
    requires WellFormed(f) && Frontier(f, con, queue, done) && queue != []
    ensures queue[0] in f
  {
  }

  method SearchBelow(con: Con, mode: FullscreenMode, ghost f: Forest) returns (r: Con?)
    requires WellFormed(f) && con in f && forall c :: c in f ==> f[c] == Snapshot(c)
    ensures r == null ==> NoHit(f, con, mode)
    ensures r != null ==> r in f && FirstHit(f, con, mode, r)
  {
    var queue: seq<Con> := [con];
    ghost var done: set<Con>, seen: seq<Con> := {}, [];
    SearchStarts(f, con);
    while queue != []
      invariant Pending(f, con, mode, queue, done, seen)
      invariant forall c :: c in f ==> f[c] == Snapshot(c)
      decreases f.Keys - done
    {
      QueueKnown(f, con, queue, done);
      var current := queue[0];
      var found, next := Visit(con, mode, queue, f, done, seen);
      if found {
        return current;
      }
      queue, done, seen := next, done + {current}, seen + [current];
    }
    NothingFound(f, con, mode, done, seen);
    r := null;
  }

  /** con_get_fullscreen_con: NULL exactly when nothing below `con` has the mode,
    * and otherwise the first that does in breadth-first order. */
  method ConGetFullscreenCon(con: Con, mode: FullscreenMode, ghost cons: set<Con>) returns (r: Con?)
    requires con in cons && WellFormed(View(cons))
    ensures r == FirstFound(View(cons), con, mode)
    ensures r == null <==> NoHit(View(cons), con, mode)
    ensures r != null ==> r in cons && FirstHit(View(cons), con, mode, r)
  {
    r := SearchBelow(con, mode, View(cons));
    if r != null {
      FirstHitUnique(View(cons), con, mode, r, FirstFound(View(cons), con, mode));
    }
  }
}
