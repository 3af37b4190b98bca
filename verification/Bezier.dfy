/** Bezier animation curves: solving x(t) = p by Newton with a bisection to fall
  * back on, in exact arithmetic.  The convention is that of section 2.2 of CSS
  * Easing Functions Level 1: end points (0,0) and (1,1), and the x coordinates
  * of the two control points within [0,1]. */
module Bezier {

  /** One coordinate of the curve. */
  function Bez(a: real, b: real, t: real): real {
    var u := 1.0 - t;
    3.0 * u * u * t * a + 3.0 * u * t * t * b + t * t * t
  }

  function BezDx(x1: real, x2: real, t: real): real {
    var u := 1.0 - t;
    3.0 * u * u * x1 + 6.0 * u * t * (x2 - x1) + 3.0 * t * t * (1.0 - x2)
  }

  function Abs(x: real): real {
    if x < 0.0 then -x else x
  }

  function Clamp01(v: real): real {
    if v < 0.0 then 0.0 else if v > 1.0 then 1.0 else v
  }

  predicate Unit(x: real) {
    0.0 <= x <= 1.0
  }

  // ---------------------------------------------------------------- what they are

  /** The point that divides the way from `p` to `q` at `t`. */
  function Mix(p: real, q: real, t: real): real {
    p + (q - p) * t
  }

  lemma Expanded(a: real, b: real, t: real)
    ensures Bez(a, b, t) == 3.0 * (t - 2.0 * (t * t) + t * t * t) * a + 3.0 * (t * t - t * t * t) * b + t * t * t
  {
    var u := 1.0 - t;
    assert u * u * t == t - 2.0 * (t * t) + t * t * t;
    assert u * t * t == t * t - t * t * t;
  }

  lemma Monomials(x: real, y: real, z: real, t: real)
    ensures (x + y + z) * t == x * t + y * t + z * t
  {
  }

  lemma Inner(a: real, b: real, t: real)
    ensures Mix(Mix(0.0, a, t), Mix(a, b, t), t) == 2.0 * (a * t) - 2.0 * (a * t * t) + b * t * t
  {
    var p, q := Mix(0.0, a, t), Mix(a, b, t);
    assert p == a * t && q == a + b * t - a * t;
    assert q - p == a + b * t + -2.0 * (a * t);
    Monomials(a, b * t, -2.0 * (a * t), t);
  }

  lemma Outer(a: real, b: real, t: real)
    ensures Mix(Mix(a, b, t), Mix(b, 1.0, t), t) ==
            a - 2.0 * (a * t) + a * t * t + 2.0 * (b * t) - 2.0 * (b * t * t) + t * t
  {
    var p, q := Mix(a, b, t), Mix(b, 1.0, t);
    assert p == a + b * t - a * t && q == b + t - b * t;
    assert q - p == (b + t + -2.0 * (b * t)) + (a * t - a);
    Monomials(b + t + -2.0 * (b * t), a * t, -a, t);
    Monomials(b, t, -2.0 * (b * t), t);
  }

  lemma Blend(l: real, r: real, t: real, a: real, at: real, att: real, bt: real, btt: real, tt: real)
    requires r - l == a - 4.0 * at + 3.0 * att + 2.0 * bt - 3.0 * btt + tt
    ensures Mix(l, r, t) ==
            l + a * t - 4.0 * (at * t) + 3.0 * (att * t) + 2.0 * (bt * t) - 3.0 * (btt * t) + tt * t
  {
    Monomials(a, -4.0 * at, 3.0 * att, t);
    Monomials(2.0 * bt, -3.0 * btt, tt, t);
    Monomials(a - 4.0 * at + 3.0 * att, 2.0 * bt - 3.0 * btt + tt, 0.0, t);
  }

  lemma Cubic(a: real, b: real, t: real)
    ensures Bez(a, b, t) ==
            3.0 * (a * t) - 6.0 * (a * t * t) + 3.0 * (a * t * t * t) + 3.0 * (b * t * t) - 3.0 * (b * t * t * t) +
              t * t * t
  {
    Expanded(a, b, t);
    var tt, ttt := t * t, t * t * t;
    assert a * t * t == a * tt && a * t * t * t == a * ttt && b * t * t == b * tt && b * t * t * t == b * ttt;
    Monomials(t, -2.0 * tt, ttt, a);
    Monomials(tt, -ttt, 0.0, b);
  }

  /** One coordinate of the curve is what dividing its control polygon at `t` again
    * and again comes to, from 0 by way of `a` and `b` to 1. */
  lemma Construction(a: real, b: real, t: real)
    ensures Bez(a, b, t) == Mix(Mix(Mix(0.0, a, t), Mix(a, b, t), t), Mix(Mix(a, b, t), Mix(b, 1.0, t), t), t)
  {
    Inner(a, b, t);
    Outer(a, b, t);
    Cubic(a, b, t);
    Blend(Mix(Mix(0.0, a, t), Mix(a, b, t), t), Mix(Mix(a, b, t), Mix(b, 1.0, t), t), t,
          a, a * t, a * t * t, b * t, b * t * t, t * t);
  }

  lemma Powers(t: real, d: real)
    ensures (t + d) * (t + d) == t * t + d * (2.0 * t + d)
    ensures (t + d) * (t + d) * (t + d) == t * t * t + d * (3.0 * (t * t) + 3.0 * (t * d) + d * d)
  {
    assert (t + d) * (t + d) == t * t + 2.0 * (t * d) + d * d;
    Monomials(t * t, 2.0 * (t * d), d * d, t);
    Monomials(t * t, 2.0 * (t * d), d * d, d);
    Monomials(3.0 * (t * t), 3.0 * (t * d), d * d, d);
  }

  lemma SlopeTerms(a: real, b: real, t: real)
    ensures BezDx(a, b, t) ==
            a * (3.0 - 12.0 * t + 9.0 * (t * t)) + b * (6.0 * t - 9.0 * (t * t)) + 3.0 * (t * t)
  {
    var u := 1.0 - t;
    assert u * u == 1.0 - 2.0 * t + t * t;
    assert u * t == t - t * t;
    assert 6.0 * u * t * (b - a) == (b - a) * (6.0 * (t - t * t));
    assert 3.0 * u * u * a == a * (3.0 * (1.0 - 2.0 * t + t * t));
  }

  lemma RiseTerms(x: real, d: real, p: real, q: real)
    ensures x * (d * (p + d * q)) == d * (x * p) + d * (d * (x * q))
  {
  }

  lemma Gather(x: real, y: real, z: real, d: real)
    ensures d * x + d * y + d * z == d * (x + y + z)
  {
  }

  /** Up to a multiple of the square of the distance the curve rises from `t` as the
    * line of slope BezDx(a, b, t) does: that is its derivative. */
  lemma Tangent(a: real, b: real, t: real, d: real)
    ensures Bez(a, b, t + d) - Bez(a, b, t) ==
            d * BezDx(a, b, t) +
            d * (d * (a * (9.0 * t + 3.0 * d - 6.0) + b * (3.0 - 9.0 * t - 3.0 * d) + (3.0 * t + d)))
  {
    var tt, ttt, ss, sss := t * t, t * t * t, (t + d) * (t + d), (t + d) * (t + d) * (t + d);
    var q1, q2, q3 := 9.0 * t + 3.0 * d - 6.0, 3.0 - 9.0 * t - 3.0 * d, 3.0 * t + d;
    var p1, p2, p3 := 3.0 - 12.0 * t + 9.0 * tt, 6.0 * t - 9.0 * tt, 3.0 * tt;
    Expanded(a, b, t + d);
    Expanded(a, b, t);
    Powers(t, d);
    assert sss - ttt == d * (p3 + d * q3);
    assert 3.0 * (ss - tt - (sss - ttt)) == d * (p2 + d * q2);
    assert 3.0 * (d - 2.0 * (ss - tt) + (sss - ttt)) == d * (p1 + d * q1);
    RiseTerms(a, d, p1, q1);
    RiseTerms(b, d, p2, q2);
    RiseTerms(1.0, d, p3, q3);
    SlopeTerms(a, b, t);
    Gather(a * p1, b * p2, p3, d);
    Gather(a * q1, b * q2, q3, d);
    Gather(d * (a * q1), d * (b * q2), d * q3, d);
  }

  // ---------------------------------------------------------------- the slope is at most 3

  /** What is left of 3(t - s) after the curve's rise from s to t, split by its
    * dependence on the control points. */
  function Rise(s: real, t: real): real {
    3.0 * (t - s) - (t * t * t - s * s * s)
  }

  function FirstPart(s: real, t: real): real {
    3.0 * ((t - s) - 2.0 * (t * t - s * s) + (t * t * t - s * s * s))
  }

  function SecondPart(s: real, t: real): real {
    3.0 * ((t * t - s * s) - (t * t * t - s * s * s))
  }

  lemma SlopeSplit(a: real, b: real, s: real, t: real)
    ensures 3.0 * (t - s) - (Bez(a, b, t) - Bez(a, b, s)) == Rise(s, t) - a * FirstPart(s, t) - b * SecondPart(s, t)
  {
    Expanded(a, b, t);
    Expanded(a, b, s);
  }

  lemma Product(x: real, y: real)
    requires x >= 0.0 && y >= 0.0
    ensures x * y >= 0.0
  {
  }

  lemma SquareBelow(x: real, xx: real)
    requires Unit(x) && xx == x * x
    ensures 0.0 <= xx <= x
  {
    Product(x, x);
    Product(x, 1.0 - x);
    assert x * (1.0 - x) == x - x * x;
  }

  lemma Square(x: real)
    ensures x * x >= 0.0
  {
    if x >= 0.0 { Product(x, x); } else { Product(-x, -x); }
  }

  /** Two squares, multiplied out. */
  lemma Squares(s: real, t: real)
    ensures t * t - 2.0 * (t * s) + s * s >= 0.0
    ensures t * t + 2.0 * (t * s) + s * s - 2.0 * (t + s) + 1.0 >= 0.0
  {
    Square(t - s);
    assert (t - s) * (t - s) == t * t - 2.0 * (t * s) + s * s;
    Square(t + s - 1.0);
    assert (t + s - 1.0) * (t + s - 1.0) == t * t + 2.0 * (t * s) + s * s - 2.0 * (t + s) + 1.0;
  }

  lemma Mixed(s: real, t: real, tt: real, ss: real, ts: real)
    requires tt - 2.0 * ts + ss >= 0.0
    requires tt + 2.0 * ts + ss - 2.0 * (t + s) + 1.0 >= 0.0
    requires ts >= 0.0
    requires tt <= t <= 1.0
    requires ss <= s <= 1.0
    ensures 3.0 - 3.0 * (t + s) + 2.0 * (tt + ts + ss) >= 0.0
    ensures tt + ts + ss <= 3.0
    ensures 6.0 * (t + s) - 4.0 * (tt + ts + ss) >= 0.0
    ensures 3.0 * (t + s) - (tt + ts + ss) >= 0.0
  {
  }

  lemma Quadratics(s: real, t: real)
    requires 0.0 <= s <= t <= 1.0
    ensures var p, q := t + s, t * t + t * s + s * s;
            q <= 3.0 && 6.0 * p - 4.0 * q >= 0.0 && 3.0 - 3.0 * p + 2.0 * q >= 0.0 && 3.0 * p - q >= 0.0
  {
    var tt, ss, ts := t * t, s * s, t * s;
    SquareBelow(t, tt);
    SquareBelow(s, ss);
    Product(t, s);
    Squares(s, t);
    Mixed(s, t, tt, ss, ts);
  }

  /** The four corners of the unit square of control points. */
  lemma Corners(s: real, t: real)
    requires 0.0 <= s <= t <= 1.0
    ensures Rise(s, t) >= 0.0
    ensures Rise(s, t) - FirstPart(s, t) >= 0.0
    ensures Rise(s, t) - SecondPart(s, t) >= 0.0
    ensures Rise(s, t) - FirstPart(s, t) - SecondPart(s, t) >= 0.0
  {
    var d, p, q := t - s, t + s, t * t + t * s + s * s;
    Quadratics(s, t);
    assert t * t - s * s == d * p;
    assert t * t * t - s * s * s == d * q;
    assert Rise(s, t) == d * (3.0 - q);
    assert Rise(s, t) - FirstPart(s, t) == d * (6.0 * p - 4.0 * q);
    assert Rise(s, t) - SecondPart(s, t) == d * (3.0 - 3.0 * p + 2.0 * q);
    assert Rise(s, t) - FirstPart(s, t) - SecondPart(s, t) == d * (3.0 * p - q);
    Product(d, 3.0 - q);
    Product(d, 6.0 * p - 4.0 * q);
    Product(d, 3.0 - 3.0 * p + 2.0 * q);
    Product(d, 3.0 * p - q);
  }

  lemma Between(c: real, d: real, x: real)
    requires Unit(x) && c >= 0.0 && c - d >= 0.0
    ensures c - x * d >= 0.0
  {
    Product(1.0 - x, c);
    Product(x, c - d);
    assert (1.0 - x) * c == c - x * c;
    assert x * (c - d) == x * c - x * d;
  }

  lemma Bilinear(r: real, f: real, g: real, a: real, b: real)
    requires Unit(a) && Unit(b) && r >= 0.0 && r - f >= 0.0 && r - g >= 0.0 && r - f - g >= 0.0
    ensures r - a * f - b * g >= 0.0
  {
    Between(r, f, a);
    Between(r - g, f, a);
    Between(r - a * f, g, b);
  }

  /** No stretch of the curve rises faster than 3. */
  lemma Slope(a: real, b: real, s: real, t: real)
    requires Unit(a) && Unit(b) && 0.0 <= s <= t <= 1.0
    ensures Bez(a, b, t) - Bez(a, b, s) <= 3.0 * (t - s)
  {
    SlopeSplit(a, b, s, t);
    Corners(s, t);
    Bilinear(Rise(s, t), FirstPart(s, t), SecondPart(s, t), a, b);
  }

  // ---------------------------------------------------------------- the range

  /** The curve is an average of its four control values. */
  lemma Weights(t: real)
    requires Unit(t)
    ensures var u := 1.0 - t;
            && u * u * u >= 0.0 && 3.0 * u * u * t >= 0.0 && 3.0 * u * t * t >= 0.0 && t * t * t >= 0.0
            && u * u * u + 3.0 * u * u * t + 3.0 * u * t * t + t * t * t == 1.0
  {
    var u := 1.0 - t;
    Product(u, u);
    Product(t, t);
    Product(u * u, u);
    Product(u * u, t);
    Product(t * t, u);
    Product(t * t, t);
    assert 3.0 * u * u * t == 3.0 * (u * u * t);
    assert 3.0 * u * t * t == 3.0 * (t * t * u);
    assert (u + t) * (u + t) == u * u + 2.0 * (u * t) + t * t;
    assert (u + t) * (u * u + 2.0 * (u * t) + t * t) == u * u * u + 3.0 * (u * u * t) + 3.0 * (t * t * u) + t * t * t;
  }

  function Least(a: real, b: real): real {
    if a < b then a else b
  }

  function Most(a: real, b: real): real {
    if a < b then b else a
  }

  lemma Negated(w: real, y: real)
    ensures w * -y == -(w * y)
  {
  }

  lemma Scaled(w: real, x: real, y: real)
    requires w >= 0.0 && x <= y
    ensures w * x <= w * y
  {
    Product(w, y - x);
    assert w * (y - x) == w * y - w * x;
  }

  lemma Shares(w0: real, w1: real, w2: real, w3: real, x: real)
    requires w0 + w1 + w2 + w3 == 1.0
    ensures w0 * x + w1 * x + w2 * x + w3 * x == x
  {
    assert w0 * x + w1 * x + w2 * x + w3 * x == (w0 + w1 + w2 + w3) * x;
  }

  lemma Total(p0: real, p1: real, p2: real, p3: real, q1: real, q2: real, w3: real, lo: real)
    requires p0 + p1 + p2 + p3 == lo && p0 <= 0.0 && p1 <= q1 && p2 <= q2 && p3 <= 0.0 && w3 >= 0.0
    requires lo <= -1.0 ==> p3 <= -w3
    ensures lo <= q1 + q2 + w3
    ensures lo <= -1.0 ==> lo <= q1 + q2 - w3
  {
  }

  /** Either sign of the last value keeps the average above a bound below all. */
  lemma Above(w0: real, w1: real, w2: real, w3: real, y1: real, y2: real, lo: real)
    requires w0 >= 0.0 && w1 >= 0.0 && w2 >= 0.0 && w3 >= 0.0 && w0 + w1 + w2 + w3 == 1.0
    requires lo <= 0.0 && lo <= y1 && lo <= y2
    ensures lo <= w1 * y1 + w2 * y2 + w3
    ensures lo <= -1.0 ==> lo <= w1 * y1 + w2 * y2 - w3
  {
    var p0, p1, p2, p3 := w0 * lo, w1 * lo, w2 * lo, w3 * lo;
    assert p0 + p1 + p2 + p3 == lo by { Shares(w0, w1, w2, w3, lo); }
    assert p0 <= 0.0 by { Scaled(w0, lo, 0.0); }
    assert p1 <= w1 * y1 by { Scaled(w1, lo, y1); }
    assert p2 <= w2 * y2 by { Scaled(w2, lo, y2); }
    assert p3 <= 0.0 by { Scaled(w3, lo, 0.0); }
    assert lo <= -1.0 ==> p3 <= -w3 by {
      if lo <= -1.0 {
        Scaled(w3, lo, -1.0);
        Negated(w3, 1.0);
      }
    }
    Total(p0, p1, p2, p3, w1 * y1, w2 * y2, w3, lo);
  }

  lemma Average(w0: real, w1: real, w2: real, w3: real, y1: real, y2: real, lo: real, hi: real)
    requires w0 >= 0.0 && w1 >= 0.0 && w2 >= 0.0 && w3 >= 0.0 && w0 + w1 + w2 + w3 == 1.0
    requires lo <= 0.0 && lo <= y1 <= hi && lo <= y2 <= hi && 1.0 <= hi
    ensures lo <= w1 * y1 + w2 * y2 + w3 <= hi
  {
    Above(w0, w1, w2, w3, y1, y2, lo);
    Above(w0, w1, w2, w3, -y1, -y2, -hi);
    Negated(w1, y1);
    Negated(w2, y2);
  }

  /** Overshoot is bounded by the control points. */
  lemma Range(y1: real, y2: real, t: real)
    requires Unit(t)
    ensures Least(0.0, Least(y1, y2)) <= Bez(y1, y2, t) <= Most(1.0, Most(y1, y2))
  {
    var u := 1.0 - t;
    Weights(t);
    var w0, w1, w2, w3 := u * u * u, 3.0 * u * u * t, 3.0 * u * t * t, t * t * t;
    assert Bez(y1, y2, t) == w1 * y1 + w2 * y2 + w3;
    Average(w0, w1, w2, w3, y1, y2, Least(0.0, Least(y1, y2)), Most(1.0, Most(y1, y2)));
  }

  // ---------------------------------------------------------------- bezier_eval

  predicate Solves(x1: real, x2: real, p: real, t: real) {
    Unit(t) && p - 0.000001 < Bez(x1, x2, t) < p + 0.000001
  }

  /** r is the curve at a parameter where x comes within a millionth of p. */
  ghost predicate Solved(x1: real, y1: real, x2: real, y2: real, p: real, r: real) {
    exists t :: Solves(x1, x2, p, t) && r == Bez(y1, y2, t)
  }

  /** (1/2)^k */
  function Half(k: nat): real {
    if k == 0 then 1.0 else Half(k - 1) / 2.0
  }

  lemma HalfFour(k: nat)
    ensures Half(k + 4) == Half(k) / 16.0
  {
    assert Half(k + 4) == Half(k + 3) / 2.0;
    assert Half(k + 3) == Half(k + 2) / 2.0;
    assert Half(k + 2) == Half(k + 1) / 2.0;
  }

  lemma HalfTwentyThree()
    ensures 3.0 * Half(23) < 0.000001
  {
    HalfFour(0);
    HalfFour(4);
    HalfFour(8);
    HalfFour(12);
    HalfFour(16);
    assert Half(23) == Half(22) / 2.0 && Half(22) == Half(21) / 2.0 && Half(21) == Half(20) / 2.0;
  }

  /** The interval of the bisection: it encloses a solution, and after `k` > 0
    * rounds `t` is its middle and it is no longer than (1/2)^(k-1). */
  ghost predicate Bracket(x1: real, x2: real, p: real, k: nat, lo: real, hi: real, t: real) {
    && 0.0 <= lo <= t <= hi <= 1.0
    && Bez(x1, x2, lo) <= p <= Bez(x1, x2, hi)
    && (k == 0 ==> lo == 0.0 && hi == 1.0)
    && (k > 0 ==> t == (lo + hi) / 2.0 && hi - lo <= Half(k - 1))
  }

  lemma BracketStep(x1: real, x2: real, p: real, k: nat, lo: real, hi: real, t: real)
    requires Bracket(x1, x2, p, k, lo, hi, t)
    ensures Bez(x1, x2, t) < p ==> Bracket(x1, x2, p, k + 1, t, hi, (t + hi) / 2.0)
    ensures Bez(x1, x2, t) >= p ==> Bracket(x1, x2, p, k + 1, lo, t, (lo + t) / 2.0)
  {
    if k > 0 { assert Half(k) == Half(k - 1) / 2.0; }
  }

  /** After 24 rounds the middle is a solution. */
  lemma BracketSolves(x1: real, x2: real, p: real, lo: real, hi: real, t: real)
    requires Unit(x1) && Unit(x2) && Bracket(x1, x2, p, 24, lo, hi, t)
    ensures Solves(x1, x2, p, t)
  {
    HalfTwentyThree();
    Slope(x1, x2, lo, t);
    Slope(x1, x2, t, hi);
  }

  lemma Ends(a: real, b: real)
    ensures Bez(a, b, 0.0) == 0.0 && Bez(a, b, 1.0) == 1.0
  {
  }

  /** The parameter after a round of Newton. */
  function Round(x1: real, x2: real, p: real, t: real): (r: real)
    requires BezDx(x1, x2, t) != 0.0
    ensures Unit(r)
  {
    Clamp01(t - (Bez(x1, x2, t) - p) / BezDx(x1, x2, t))
  }

  lemma Ratio(x: real, d: real, z: real)
    requires d != 0.0 && x + z * d == 0.0
    ensures z == -(x / d)
  {
    assert x / d * d == x;
    assert (x / d + z) * d == 0.0;
  }

  lemma Meeting(y: real, d: real, p: real, t: real, z: real)
    requires d != 0.0 && y + (z - t) * d == p
    ensures t - (y - p) / d == z
  {
    Ratio(y - p, d, z - t);
  }

  /** It goes to where the tangent meets p, or to the end of [0, 1] nearest to it. */
  lemma RoundMeets(x1: real, x2: real, p: real, t: real, z: real)
    requires BezDx(x1, x2, t) != 0.0 && Bez(x1, x2, t) + (z - t) * BezDx(x1, x2, t) == p
    ensures Round(x1, x2, p, t) == if z < 0.0 then 0.0 else if z > 1.0 then 1.0 else z
  {
    Meeting(Bez(x1, x2, t), BezDx(x1, x2, t), p, t, z);
  }

  predicate Flat(x1: real, x2: real, t: real) {
    -0.000001 < BezDx(x1, x2, t) < 0.000001
  }

  /** A parameter at which Newton does not go on. */
  predicate Stops(x1: real, x2: real, p: real, t: real) {
    Solves(x1, x2, p, t) || Flat(x1, x2, t)
  }

  /** The parameters of a Newton iteration from p, of at most eight rounds: each but
    * the last goes on to the next, and the search ends with the last one. */
  ghost predicate Iteration(x1: real, x2: real, p: real, ts: seq<real>) {
    && 1 <= |ts| <= 9 && ts[0] == p && (forall i :: 0 <= i < |ts| ==> Unit(ts[i]))
    && forall i {:trigger ts[i]} :: 0 < i < |ts| ==>
         !Stops(x1, x2, p, ts[i - 1]) && BezDx(x1, x2, ts[i - 1]) != 0.0 && ts[i] == Round(x1, x2, p, ts[i - 1])
  }

  lemma IterationGrows(x1: real, x2: real, p: real, ts: seq<real>, t: real, next: real)
    requires Iteration(x1, x2, p, ts) && |ts| <= 8 && t == ts[|ts| - 1]
    requires !Stops(x1, x2, p, t) && BezDx(x1, x2, t) != 0.0 && next == Round(x1, x2, p, t)
    ensures Iteration(x1, x2, p, ts + [next])
  {
    var all := ts + [next];
    forall i {:trigger all[i]} | 0 < i < |all|
      ensures !Stops(x1, x2, p, all[i - 1]) && BezDx(x1, x2, all[i - 1]) != 0.0 &&
              all[i] == Round(x1, x2, p, all[i - 1])
    {
      if i < |ts| { assert all[i] == ts[i] && all[i - 1] == ts[i - 1]; }
    }
  }

  /** Newton for at most eight rounds; whether it found a solution. */
  method Newton(x1: real, x2: real, p: real) returns (found: bool, t: real)
    requires Unit(p)
    ensures Unit(t) && (found ==> Solves(x1, x2, p, t))
    ensures exists ts ::
              Iteration(x1, x2, p, ts) && t == ts[|ts| - 1] &&
              (if found then |ts| <= 8 else |ts| == 9 || (Flat(x1, x2, t) && !Solves(x1, x2, p, t)))
  {
    t := p;
    found := false;
    ghost var ts := [p];
    var i := 0;
    while i < 8
      invariant i <= 8 && |ts| == i + 1 && Iteration(x1, x2, p, ts) && t == ts[i] && !found
    {
      var x := Bez(x1, x2, t) - p;
      if Abs(x) < 0.000001 {
        return true, t;
      }
      var d := BezDx(x1, x2, t);
      if Abs(d) < 0.000001 {
        break;
      }
      ghost var before := t;
      t := t - x / d;
      if t < 0.0 {
        t := 0.0;
      }
      if t > 1.0 {
        t := 1.0;
      }
      IterationGrows(x1, x2, p, ts, before, t);
      ts := ts + [t];
      i := i + 1;
    }
  }

  method Bisect(x1: real, x2: real, p: real) returns (t: real)
    requires Unit(x1) && Unit(x2) && Unit(p)
    ensures Solves(x1, x2, p, t)
  {
    var lo, hi := 0.0, 1.0;
    t := p;
    Ends(x1, x2);
    var i := 0;
    while i < 24
      invariant i <= 24 && Bracket(x1, x2, p, i, lo, hi, t)
    {
      var x := Bez(x1, x2, t);
      if Abs(x - p) < 0.000001 {
        return;
      }
      BracketStep(x1, x2, p, i, lo, hi, t);
      if x < p {
        lo := t;
      } else {
        hi := t;
      }
      t := (lo + hi) / 2.0;
      i := i + 1;
    }
    BracketSolves(x1, x2, p, lo, hi, t);
  }

  /** bezier_eval: whichever way it ends, the result is on the curve above a
    * point within a millionth of p. */
  method BezierEval(x1: real, y1: real, x2: real, y2: real, p: real) returns (r: real)
    requires Unit(x1) && Unit(x2) && Unit(p)
    ensures Solved(x1, y1, x2, y2, p, r)
    ensures Least(0.0, Least(y1, y2)) <= r <= Most(1.0, Most(y1, y2))
    ensures y1 == x1 && y2 == x2 ==> p - 0.000001 < r < p + 0.000001
  {
    var found, t := Newton(x1, x2, p);
    if !found {
      t := Bisect(x1, x2, p);
    }
    Range(y1, y2, t);
    r := Bez(y1, y2, t);
  }
}
