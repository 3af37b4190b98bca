/** Shares of a container among its children: con_fix_percent and the resize of
  * a width or height. */
module Percent {

  function Sum(s: seq<real>): real {
    if s == [] then 0.0 else s[0] + Sum(s[1..])
  }

  ghost predicate AllPositive(s: seq<real>) {
    forall i :: 0 <= i < |s| ==> s[i] > 0.0
  }

  // ---------------------------------------------------------------- con_fix_percent

  /** What the children with a share have together, and how many they are. */
  function Given(s: seq<real>): real {
    if s == [] then 0.0 else (if s[0] > 0.0 then s[0] else 0.0) + Given(s[1..])
  }

  function Count(s: seq<real>): nat {
    if s == [] then 0 else (if s[0] > 0.0 then 1 else 0) + Count(s[1..])
  }

  /** A newcomer's share: the running total over the number of children that
    * had one from the start, or 1 when none had. */
  function Share(total: real, count: nat): real {
    if count == 0 then 1.0 else total / count as real
  }

  /** The second loop.  Each newcomer's share is added to the total before the
    * next one's is computed. */
  function Fill(s: seq<real>, total: real, count: nat): seq<real> {
    if s == [] then []
    else if s[0] <= 0.0 then [Share(total, count)] + Fill(s[1..], total + Share(total, count), count)
    else [s[0]] + Fill(s[1..], total, count)
  }

  function Scale(s: seq<real>, total: real): (r: seq<real>)
    requires total != 0.0
    ensures |r| == |s| && forall i :: 0 <= i < |s| ==> r[i] == s[i] / total
  {
    if s == [] then [] else [s[0] / total] + Scale(s[1..], total)
  }

  /** Every child ends up with a positive share before scaling. */
  function Filled(s: seq<real>): seq<real> {
    if Count(s) != |s| then Fill(s, Given(s), Count(s)) else s
  }

  function Equal(n: nat): (r: seq<real>)
    ensures |r| == n
  {
    if n == 0 then [] else seq(n, _ => 1.0 / n as real)
  }

  /** The last step, given the total of the shares. */
  function Normal(s: seq<real>, total: real): seq<real> {
    if total == 0.0 then Equal(|s|)
    else if total != 1.0 then Scale(s, total)
    else s
  }

  /** con_fix_percent on a container whose layout is not L_SCROLLING. */
  function Fix(s: seq<real>): seq<real> {
    Normal(Filled(s), Sum(Filled(s)))
  }

  /** Whoever had a share keeps it, and the others get a positive one. */
  lemma {:induction false} FillTotal(s: seq<real>, total: real, count: nat)
    requires count == 0 || total > 0.0
    ensures |Fill(s, total, count)| == |s| && AllPositive(Fill(s, total, count))
    ensures forall i :: 0 <= i < |s| && s[i] > 0.0 ==> Fill(s, total, count)[i] == s[i]
  {
    if s != [] {
      if s[0] <= 0.0 {
        assert count > 0 ==> total / count as real > 0.0;
        FillTotal(s[1..], total + Share(total, count), count);
      } else {
        FillTotal(s[1..], total, count);
      }
    }
  }

  lemma {:induction false} GivenBounds(s: seq<real>)
    ensures Count(s) <= |s| && Given(s) >= 0.0
    ensures Count(s) > 0 ==> Given(s) > 0.0
    ensures Count(s) == |s| <==> AllPositive(s)
    ensures Count(s) == |s| ==> Given(s) == Sum(s)
  {
    if s != [] {
      GivenBounds(s[1..]);
      if AllPositive(s[1..]) && s[0] > 0.0 {
        assert AllPositive(s);
      }
      if AllPositive(s) {
        assert s[0] > 0.0;
        assert forall i :: 0 <= i < |s[1..]| ==> s[1..][i] == s[i + 1];
      }
    }
  }

  lemma FilledPositive(s: seq<real>)
    ensures |Filled(s)| == |s| && AllPositive(Filled(s))
    ensures forall i :: 0 <= i < |s| && s[i] > 0.0 ==> Filled(s)[i] == s[i]
  {
    GivenBounds(s);
    FillTotal(s, Given(s), Count(s));
  }

  lemma {:induction false} SumPositive(s: seq<real>)
    requires AllPositive(s)
    ensures Sum(s) >= 0.0 && (s != [] ==> Sum(s) > 0.0)
  {
    if s != [] {
      assert s[0] > 0.0 && forall i :: 0 <= i < |s[1..]| ==> s[1..][i] == s[i + 1];
      SumPositive(s[1..]);
    }
  }

  lemma DivAdds(x: real, y: real, t: real)
    requires t != 0.0
    ensures (x + y) / t == x / t + y / t
  {
  }

  lemma ScaleStep(s: seq<real>, total: real)
    requires total != 0.0 && s != []
    ensures Sum(Scale(s, total)) == s[0] / total + Sum(Scale(s[1..], total))
  {
    assert Scale(s, total)[1..] == Scale(s[1..], total);
  }

  lemma {:induction false} ScaleSum(s: seq<real>, total: real)
    requires total != 0.0
    ensures Sum(Scale(s, total)) == Sum(s) / total
  {
    if s != [] {
      ScaleStep(s, total);
      ScaleSum(s[1..], total);
      DivAdds(s[0], Sum(s[1..]), total);
    }
  }

  /** Every share is the filled one over the total of the filled ones. */
  lemma FixIs(s: seq<real>)
    requires s != []
    ensures Sum(Filled(s)) > 0.0 && |Fix(s)| == |s| == |Filled(s)|
    ensures forall i :: 0 <= i < |s| ==> Fix(s)[i] == Filled(s)[i] / Sum(Filled(s))
    ensures Sum(Fix(s)) == Sum(Filled(s)) / Sum(Filled(s))
  {
    FilledPositive(s);
    SumPositive(Filled(s));
    ScaleSum(Filled(s), Sum(Filled(s)));
  }

  lemma DivSelf(x: real)
    requires x > 0.0
    ensures x / x == 1.0
  {
  }

  lemma DivPositive(x: real, y: real)
    requires x > 0.0 && y > 0.0
    ensures x / y > 0.0
  {
  }

  /** Afterwards the shares are positive and add up to exactly 1. */
  lemma FixTotal(s: seq<real>)
    requires s != []
    ensures |Fix(s)| == |s| && AllPositive(Fix(s)) && Sum(Fix(s)) == 1.0
  {
    FixIs(s);
    FilledPositive(s);
    var total := Sum(Filled(s));
    forall i | 0 <= i < |s| ensures Fix(s)[i] > 0.0 {
      DivPositive(Filled(s)[i], total);
    }
    DivSelf(total);
  }

  /** Children that had a share keep their proportions: all are divided by the
    * same number. */
  lemma FixRatios(s: seq<real>) returns (t: real)
    requires s != []
    ensures t > 0.0 && |Fix(s)| == |s|
    ensures forall i :: 0 <= i < |s| && s[i] > 0.0 ==> Fix(s)[i] == s[i] / t
  {
    FilledPositive(s);
    FixIs(s);
    t := Sum(Filled(s));
  }

  lemma FixAt(s: seq<real>, i: nat)
    requires i < |s|
    ensures Sum(Filled(s)) > 0.0 && |Fix(s)| == |s| == |Filled(s)| && Fix(s)[i] == Filled(s)[i] / Sum(Filled(s))
  {
    FixIs(s);
  }

  /** Once positive with sum 1, shares stay as they are. */
  lemma FixDone(s: seq<real>)
    requires AllPositive(s) && Sum(s) == 1.0
    ensures Fix(s) == s
  {
    GivenBounds(s);
  }

  lemma FixTwice(s: seq<real>)
    ensures Fix(Fix(s)) == Fix(s)
  {
    if s != [] {
      FixTotal(s);
      FixDone(Fix(s));
    }
  }

  // ---------------------------------------------------------------- newcomers

  lemma {:induction false} SumJoin(s: seq<real>, t: seq<real>)
    ensures Sum(s + t) == Sum(s) + Sum(t)
  {
    if s == [] {
      assert s + t == t;
    } else {
      SumJoin(s[1..], t);
      assert (s + t)[1..] == s[1..] + t;
    }
  }

  lemma {:induction false} CountJoin(s: seq<real>, t: seq<real>)
    ensures Count(s + t) == Count(s) + Count(t) && Given(s + t) == Given(s) + Given(t)
  {
    if s == [] {
      assert s + t == t;
    } else {
      CountJoin(s[1..], t);
      assert (s + t)[1..] == s[1..] + t;
    }
  }

  /** Nothing is filled in where everybody has a share. */
  lemma {:induction false} FillJoin(s: seq<real>, t: seq<real>, total: real, count: nat)
    requires AllPositive(s)
    ensures Fill(s + t, total, count) == s + Fill(t, total, count)
  {
    if s == [] {
      assert s + t == t;
    } else {
      assert s[0] > 0.0 && AllPositive(s[1..]) by { assert forall i :: 0 <= i < |s[1..]| ==> s[1..][i] == s[i + 1]; }
      FillJoin(s[1..], t, total, count);
      assert (s + t)[1..] == s[1..] + t;
    }
  }

  lemma SumThree(s: seq<real>, x: real, t: seq<real>)
    ensures Sum(s + [x] + t) == Sum(s) + x + Sum(t)
  {
    SumJoin(s + [x], t);
    SumJoin(s, [x]);
  }

  lemma NewcomerRest(x: real, after: seq<real>, total: real, count: nat)
    requires AllPositive(after) && x <= 0.0
    ensures Fill([x] + after, total, count) == [Share(total, count)] + after
  {
    FillJoin(after, [], total + Share(total, count), count);
    assert after + [] == after && ([x] + after)[1..] == after;
  }

  /** The one newcomer is filled in, the others stay. */
  lemma NewcomerFills(before: seq<real>, x: real, after: seq<real>, total: real, count: nat)
    requires AllPositive(before) && AllPositive(after) && x <= 0.0
    ensures Fill(before + [x] + after, total, count) == before + [Share(total, count)] + after
  {
    var rest := [x] + after;
    assert before + [x] + after == before + rest;
    FillJoin(before, rest, total, count);
    NewcomerRest(x, after, total, count);
    assert before + ([Share(total, count)] + after) == before + [Share(total, count)] + after;
  }

  lemma NewcomerFilled(before: seq<real>, x: real, after: seq<real>, total: real, count: nat)
    requires AllPositive(before) && AllPositive(after) && x <= 0.0
    requires total == Sum(before) + Sum(after) && count == Count(before + [x] + after) == |before| + |after|
    requires total == Given(before + [x] + after)
    ensures var s, share := before + [x] + after, Share(total, count);
            Filled(s) == before + [share] + after && Sum(Filled(s)) == total + share
  {
    NewcomerFills(before, x, after, total, count);
    SumThree(before, Share(total, count), after);
  }

  lemma Cancel(x: real, y: real)
    requires x > 0.0 && y > 0.0
    ensures x * y > 0.0 && x / (x * y) == 1.0 / y
  {
    assert (1.0 / y) * (x * y) == x * ((1.0 / y) * y);
  }

  lemma OneOfMany(total: real, count: nat)
    requires total > 0.0 && count > 0
    ensures total / count as real > 0.0 &&
            (total / count as real) / (total + total / count as real) == 1.0 / (count as real + 1.0)
  {
    var c := count as real;
    var x := total / c;
    assert total == x * c;
    assert total + x == x * (c + 1.0);
    Cancel(x, c + 1.0);
  }

  /** A single newcomer among n children gets exactly 1/n. */
  lemma SingleNewcomer(before: seq<real>, x: real, after: seq<real>)
    requires AllPositive(before) && AllPositive(after) && x <= 0.0
    ensures var s := before + [x] + after;
            |Fix(s)| == |s| && Fix(s)[|before|] == 1.0 / |s| as real
  {
    var s := before + [x] + after;
    var given, count := Given(s), Count(s);
    GivenBounds(s);
    GivenBounds(before);
    GivenBounds(after);
    CountJoin(before + [x], after);
    CountJoin(before, [x]);
    assert count == |s| - 1 && given == Sum(before) + Sum(after);
    NewcomerFilled(before, x, after, given, count);
    FixAt(s, |before|);
    if count > 0 { OneOfMany(given, count); }
  }

  lemma DivGrows(x: real, d: real, y: real)
    requires d > 0.0 && y > 0.0
    ensures x / y < (x + d) / y
  {
    assert (x + d) / y == x / y + d / y;
  }

  lemma {:induction false} FillAtLeast(s: seq<real>, total: real, count: nat, j: nat)
    requires j < |s| && s[j] <= 0.0 && (count == 0 || total > 0.0)
    ensures |Fill(s, total, count)| == |s|
    ensures if count == 0 then Fill(s, total, count)[j] == 1.0 else Fill(s, total, count)[j] >= total / count as real
    decreases |s|
  {
    FillTotal(s, total, count);
    if j > 0 {
      if s[0] <= 0.0 {
        var share := Share(total, count);
        assert count > 0 ==> share > 0.0;
        FillAtLeast(s[1..], total + share, count, j - 1);
        if count > 0 { DivGrows(total, share, count as real); }
      } else {
        FillAtLeast(s[1..], total, count, j - 1);
      }
    }
  }

  /** Of several newcomers beside children that have shares, a later one gets
    * strictly more: they are equal exactly when nobody had a share. */
  lemma {:induction false} LaterNewcomersGrow(s: seq<real>, total: real, count: nat, i: nat, j: nat)
    requires i < j < |s| && s[i] <= 0.0 && s[j] <= 0.0 && (count == 0 || total > 0.0)
    ensures |Fill(s, total, count)| == |s|
    ensures if count == 0 then Fill(s, total, count)[i] == Fill(s, total, count)[j]
            else Fill(s, total, count)[i] < Fill(s, total, count)[j]
    decreases |s|
  {
    FillTotal(s, total, count);
    if s[0] <= 0.0 {
      var share := Share(total, count);
      assert count > 0 ==> share > 0.0;
      if i == 0 {
        FillAtLeast(s[1..], total + share, count, j - 1);
        if count > 0 { DivGrows(total, share, count as real); }
      } else {
        LaterNewcomersGrow(s[1..], total + share, count, i - 1, j - 1);
      }
    } else {
      LaterNewcomersGrow(s[1..], total, count, i - 1, j - 1);
    }
  }

  lemma DivOrder(x: real, y: real, t: real)
    requires t > 0.0 && x <= y
    ensures x < y ==> x / t < y / t
  {
    assert y / t == x / t + (y - x) / t;
  }

  /** So newcomers end up with equal shares if and only if no child had one. */
  lemma NewcomersEqual(s: seq<real>, i: nat, j: nat)
    requires i < j < |s| && s[i] <= 0.0 && s[j] <= 0.0
    ensures |Fix(s)| == |s| && (Fix(s)[i] == Fix(s)[j] <==> Count(s) == 0)
  {
    GivenBounds(s);
    LaterNewcomersGrow(s, Given(s), Count(s), i, j);
    FixAt(s, i);
    FixAt(s, j);
    DivOrder(Filled(s)[i], Filled(s)[j], Sum(Filled(s)));
  }

  // ---------------------------------------------------------------- resizing

  function FillZeros(s: seq<real>, default: real): (r: seq<real>)
    ensures |r| == |s| && forall i :: 0 <= i < |s| ==> r[i] == if s[i] == 0.0 then default else s[i]
  {
    if s == [] then [] else [if s[0] == 0.0 then default else s[0]] + FillZeros(s[1..], default)
  }

  function Minus(s: seq<real>, d: real): (r: seq<real>)
    ensures |r| == |s| && forall i :: 0 <= i < |s| ==> r[i] == s[i] - d
  {
    if s == [] then [] else [s[0] - d] + Minus(s[1..], d)
  }

  /** One child grows by `ppt`, the others give up `d` each. */
  function Grown(s: seq<real>, current: nat, ppt: real, d: real): (r: seq<real>)
    requires current < |s|
    ensures |r| == |s|
    ensures forall i :: 0 <= i < |s| ==> r[i] == if i == current then s[i] + ppt else s[i] - d
  {
    Minus(s[..current], d) + [s[current] + ppt] + Minus(s[current + 1..], d)
  }

  ghost predicate TooSmall(s: seq<real>, current: nat, ppt: real, d: real, onePixel: seq<real>)
    requires current < |s| == |onePixel|
  {
    || (ppt < 0.0 && s[current] + ppt < onePixel[current])
    || (d >= 0.0 && exists i :: 0 <= i < |s| && i != current && s[i] - d < onePixel[i])
  }

  /** cmd_resize_tiling_width_height: whether it succeeds, and the shares. */
  ghost function Resize(s: seq<real>, current: nat, ppt: real, onePixel: seq<real>): (bool, seq<real>)
    requires current < |s| == |onePixel| && |s| > 1
  {
    var full := FillZeros(s, 1.0 / |s| as real);
    var d := ppt / (|s| - 1) as real;
    if TooSmall(full, current, ppt, d, onePixel) then (false, full) else (true, Grown(full, current, ppt, d))
  }

  /** A child's share before: a missing one counts as an equal part. */
  ghost function Had(s: seq<real>, k: nat): real
    requires k < |s|
  {
    if s[k] == 0.0 then 1.0 / |s| as real else s[k]
  }

  lemma SignKept(ppt: real, n: nat)
    requires n > 0
    ensures ppt / n as real >= 0.0 <==> ppt >= 0.0
  {
    var d := ppt / n as real;
    assert d * n as real == ppt;
  }

  /** On success it is the current child that grows by `ppt`, or shrinks, and each
    * other one that loses an equal part of that; otherwise missing shares are
    * filled in and that is all. */
  lemma ResizeMoves(s: seq<real>, current: nat, ppt: real, onePixel: seq<real>)
    requires current < |s| == |onePixel| && |s| > 1
    ensures var (ok, r) := Resize(s, current, ppt, onePixel);
            && |r| == |s| && r[current] == (if ok then Had(s, current) + ppt else Had(s, current))
            && forall k :: 0 <= k < |s| && k != current ==>
                 r[k] == if ok then Had(s, k) - ppt / (|s| - 1) as real else Had(s, k)
  {
  }

  /** It is refused exactly when the current child would shrink below one of its
    * pixels, or when it is to grow and another child would end below one. */
  lemma ResizeRefused(s: seq<real>, current: nat, ppt: real, onePixel: seq<real>)
    requires current < |s| == |onePixel| && |s| > 1
    ensures !Resize(s, current, ppt, onePixel).0 <==>
            if ppt < 0.0 then Had(s, current) + ppt < onePixel[current]
            else exists k :: 0 <= k < |s| && k != current && Had(s, k) - ppt / (|s| - 1) as real < onePixel[k]
  {
    SignKept(ppt, |s| - 1);
    var full, d := FillZeros(s, 1.0 / |s| as real), ppt / (|s| - 1) as real;
    assert forall k :: 0 <= k < |s| ==> full[k] == Had(s, k);
    if k :| 0 <= k < |s| && k != current && Had(s, k) - d < onePixel[k] {
      assert full[k] - d < onePixel[k];
    }
  }

  /** d, n times over. */
  function Times(n: nat, d: real): real {
    if n == 0 then 0.0 else d + Times(n - 1, d)
  }

  lemma {:induction false} TimesAdds(m: nat, n: nat, d: real)
    ensures Times(m + n, d) == Times(m, d) + Times(n, d)
  {
    if m > 0 { TimesAdds(m - 1, n, d); }
  }

  lemma {:induction false} TimesIs(n: nat, d: real)
    ensures Times(n, d) == n as real * d
  {
    if n > 0 { TimesIs(n - 1, d); }
  }

  lemma TimesQuotient(n: nat, x: real)
    requires n > 0
    ensures Times(n, x / n as real) == x && (x >= 0.0 <==> x / n as real >= 0.0)
  {
    TimesIs(n, x / n as real);
  }

  lemma {:induction false} MinusSum(s: seq<real>, d: real)
    ensures Sum(Minus(s, d)) == Sum(s) - Times(|s|, d)
  {
    if s != [] {
      MinusSum(s[1..], d);
    }
  }

  lemma GrownSum(s: seq<real>, current: nat, ppt: real, d: real)
    requires current < |s| && ppt == Times(|s| - 1, d)
    ensures Sum(Grown(s, current, ppt, d)) == Sum(s)
  {
    var a, b := s[..current], s[current + 1..];
    MinusSum(a, d);
    MinusSum(b, d);
    SumThree(Minus(a, d), s[current] + ppt, Minus(b, d));
    assert s == a + [s[current]] + b;
    SumThree(a, s[current], b);
    TimesAdds(|a|, |b|, d);
  }

  lemma GrownPositive(s: seq<real>, current: nat, ppt: real, d: real, onePixel: seq<real>)
    requires current < |s| == |onePixel| && AllPositive(onePixel) && AllPositive(s) && (ppt >= 0.0 <==> d >= 0.0)
    requires !TooSmall(s, current, ppt, d, onePixel)
    ensures AllPositive(Grown(s, current, ppt, d))
  {
  }

  lemma ResizeFull(full: seq<real>, current: nat, ppt: real, d: real, onePixel: seq<real>)
    requires current < |full| == |onePixel| && AllPositive(onePixel) && AllPositive(full)
    requires (ppt >= 0.0 <==> d >= 0.0) && ppt == Times(|full| - 1, d)
    ensures var r := if TooSmall(full, current, ppt, d, onePixel) then full else Grown(full, current, ppt, d);
            |r| == |full| && AllPositive(r) && Sum(r) == Sum(full)
  {
    if !TooSmall(full, current, ppt, d, onePixel) {
      GrownSum(full, current, ppt, d);
      GrownPositive(full, current, ppt, d, onePixel);
    }
  }

  /** A successful resize takes from the others what it gives, and leaves every
    * share positive. */
  lemma ResizeConserves(s: seq<real>, current: nat, ppt: real, onePixel: seq<real>)
    requires current < |s| == |onePixel| && |s| > 1 && AllPositive(onePixel)
    requires AllPositive(FillZeros(s, 1.0 / |s| as real))
    ensures var r := Resize(s, current, ppt, onePixel).1;
            |r| == |s| && AllPositive(r) && Sum(r) == Sum(FillZeros(s, 1.0 / |s| as real))
  {
    var full := FillZeros(s, 1.0 / |s| as real);
    var d := ppt / (|s| - 1) as real;
    TimesQuotient(|s| - 1, ppt);
    ResizeFull(full, current, ppt, d, onePixel);
  }

  lemma NoZeros(s: seq<real>, default: real)
    requires AllPositive(s)
    ensures FillZeros(s, default) == s
  {
  }

  /** So con_fix_percent has nothing to do after it. */
  lemma ResizeThenFix(s: seq<real>, current: nat, ppt: real, onePixel: seq<real>)
    requires current < |s| == |onePixel| && |s| > 1 && AllPositive(onePixel)
    ensures |Fix(s)| == |s| && (var r := Resize(Fix(s), current, ppt, onePixel).1; Fix(r) == r)
  {
    FixTotal(s);
    NoZeros(Fix(s), 1.0 / |s| as real);
    ResizeConserves(Fix(s), current, ppt, onePixel);
    FixDone(Resize(Fix(s), current, ppt, onePixel).1);
  }
}
