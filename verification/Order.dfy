/** Sequences used as ordered lists without repetition: the mathematical side
  * of the intrusive tail queues. */
module Order {
  datatype Option<+T> = None | Some(value: T)

  ghost predicate Distinct<T>(s: seq<T>) {
    forall i, j :: 0 <= i < j < |s| ==> s[i] != s[j]
  }

  /** Position of `x`'s first occurrence. */
  function IndexOf<T(==)>(s: seq<T>, x: T): (i: nat)
    requires x in s
    ensures i < |s| && s[i] == x
    ensures x !in s[..i]
  {
    if s[0] == x then 0
    else
      var i := IndexOf(s[1..], x) + 1;
      assert s[..i] == [s[0]] + s[1..][..i - 1];
      i
  }

  /** `s` without the entry at `i`. */
  function Removed<T>(s: seq<T>, i: nat): seq<T>
    requires i < |s|
  {
    s[..i] + s[i + 1..]
  }

  /** `s` with `x` before the entry at `i`, or at the end. */
  function Inserted<T>(s: seq<T>, i: nat, x: T): seq<T>
    requires i <= |s|
  {
    s[..i] + [x] + s[i..]
  }

  /** `s` with the first occurrence of `x` taken out. */
  function Without<T(==)>(s: seq<T>, x: T): seq<T>
    requires x in s
  {
    Removed(s, IndexOf(s, x))
  }

  /** `s` with `x` and `y` written for one another wherever they occur. */
  function Exchanged<T(==)>(s: seq<T>, x: T, y: T): (r: seq<T>)
    ensures |r| == |s|
  {
    seq(|s|, i requires 0 <= i < |s| => if s[i] == x then y else if s[i] == y then x else s[i])
  }

  lemma WithoutFirst<T>(s: seq<T>, k: nat)
    requires k < |s|
    ensures s[k] in s[k..] && Without(s[k..], s[k]) == s[k + 1..]
  {
    assert s[k..][0] == s[k];
  }

  lemma WithoutMembers<T>(s: seq<T>, x: T)
    requires Distinct(s) && x in s
    ensures Distinct(Without(s, x)) && |Without(s, x)| == |s| - 1
    ensures forall y :: y in Without(s, x) <==> y in s && y != x
  {
    var i := IndexOf(s, x);
    var r := Without(s, x);
    forall y | y in s && y != x ensures y in r {
      var j := IndexOf(s, y);
      assert r[if j < i then j else j - 1] == y;
    }
  }

  lemma InsertedMembers<T>(s: seq<T>, i: nat, x: T)
    requires Distinct(s) && i <= |s| && x !in s
    ensures Distinct(Inserted(s, i, x))
    ensures forall y :: y in Inserted(s, i, x) <==> y in s || y == x
  {
    var r := Inserted(s, i, x);
    forall y | y in s ensures y in r {
      var j := IndexOf(s, y);
      assert r[if j < i then j else j + 1] == y;
    }
    assert r[i] == x;
  }

  lemma ExchangedMembers<T>(s: seq<T>, x: T, y: T)
    requires Distinct(s)
    ensures Distinct(Exchanged(s, x, y))
    ensures forall z :: z in Exchanged(s, x, y) <==>
              (if z == x then y in s else if z == y then x in s else z in s)
  {
    var r := Exchanged(s, x, y);
    forall z | z in s && z != x && z != y ensures z in r {
      assert r[IndexOf(s, z)] == z;
    }
    if x in s { assert r[IndexOf(s, x)] == y; }
    if y in s { assert r[IndexOf(s, y)] == x; }
  }

  /** Exchanging two entries rewrites exactly their two positions. */
  lemma ExchangedAt<T>(s: seq<T>, i: nat, j: nat)
    requires Distinct(s) && i < |s| && j < |s|
    ensures Exchanged(s, s[i], s[j]) == s[i := s[j]][j := s[i]]
    ensures Distinct(Exchanged(s, s[i], s[j]))
  {
    ExchangedMembers(s, s[i], s[j]);
  }

  /** Exchanging an entry for an outsider rewrites exactly its position. */
  lemma ExchangedFor<T>(s: seq<T>, i: nat, y: T)
    requires Distinct(s) && i < |s| && y !in s
    ensures Exchanged(s, s[i], y) == Exchanged(s, y, s[i]) == s[i := y]
  {
  }

  lemma ExchangeTwice<T>(s: seq<T>, x: T, y: T)
    ensures Exchanged(Exchanged(s, x, y), x, y) == s
  {
  }
}
