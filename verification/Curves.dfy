/** The table of named curves, and the evaluation every animation goes through. */
module Curves {
  import opened Ascii
  import opened Bezier

  datatype Shape =
    | Cubic(x1: real, y1: real, x2: real, y2: real)
    | Spring(damping: real, stiffness: real, mass: real, epsilon: real, settle: real)

  datatype Curve = Curve(name: string, shape: Shape)

  /** The position of the first curve of that name, or the length of the table. */
  function Position(curves: seq<Curve>, name: string): (i: nat)
    ensures i <= |curves|
    ensures i < |curves| ==> SameText(curves[i].name, name)
    ensures forall j {:trigger curves[j]} :: 0 <= j < i ==> !SameText(curves[j].name, name)
  {
    if curves == [] then 0
    else if SameText(curves[0].name, name) then 0
    else
      var i := Position(curves[1..], name);
      assert forall j {:trigger curves[j]} :: 0 < j < |curves| ==> curves[j] == curves[1..][j - 1];
      i + 1
  }

  /** A definition takes over the entry of its name, which keeps its spelling,
    * or goes to the end of the table. */
  function Put(curves: seq<Curve>, name: string, shape: Shape): seq<Curve> {
    var i := Position(curves, name);
    if i < |curves| then curves[i := Curve(curves[i].name, shape)] else curves + [Curve(name, shape)]
  }

  predicate NamesDistinct(curves: seq<Curve>) {
    forall i, j :: 0 <= i < j < |curves| ==> !SameText(curves[i].name, curves[j].name)
  }

  predicate Sound(shape: Shape) {
    match shape
    case Cubic(x1, _, x2, _) => Unit(x1) && Unit(x2)
    case Spring(damping, stiffness, mass, epsilon, settle) =>
      damping > 0.0 && stiffness > 0.0 && mass > 0.0 && epsilon > 0.0 && 0.0 < settle <= 10000.0
  }

  ghost predicate WellDefined(curves: seq<Curve>) {
    NamesDistinct(curves) && forall i :: 0 <= i < |curves| ==> curves[i].name != "" && Sound(curves[i].shape)
  }

  /** What a name stands for. */
  function Meaning(curves: seq<Curve>, name: string): (r: seq<Shape>) {
    var i := Position(curves, name);
    if i < |curves| then [curves[i].shape] else []
  }

  lemma SameAs(curves: seq<Curve>, changed: seq<Curve>, name: string)
    requires |curves| <= |changed|
    requires forall i {:trigger changed[i]} :: 0 <= i < |curves| ==> SameText(changed[i].name, curves[i].name)
    requires forall i {:trigger changed[i]} :: |curves| <= i < |changed| ==> !SameText(changed[i].name, name)
    ensures Position(curves, name) < |curves| ==> Position(changed, name) == Position(curves, name)
    ensures Position(curves, name) == |curves| ==> Position(changed, name) == |changed|
  {
    var i, j := Position(curves, name), Position(changed, name);
    if i < |curves| { assert SameText(changed[i].name, name); }
    if j < |changed| {
      assert SameText(changed[j].name, name);
      assert SameText(curves[j].name, name);
    }
  }

  /** A definition changes what its own name means, whatever its case, and no
    * other name; the table stays free of doubles. */
  lemma Defines(curves: seq<Curve>, name: string, shape: Shape)
    requires WellDefined(curves) && name != "" && Sound(shape)
    ensures WellDefined(Put(curves, name, shape))
    ensures forall other :: SameText(name, other) ==> Meaning(Put(curves, name, shape), other) == [shape]
    ensures forall other :: !SameText(name, other) ==>
              Meaning(Put(curves, name, shape), other) == Meaning(curves, other)
  {
    var at, changed := Position(curves, name), Put(curves, name, shape);
    forall other: string
      ensures SameText(name, other) ==> Meaning(changed, other) == [shape]
      ensures !SameText(name, other) ==> Meaning(changed, other) == Meaning(curves, other)
    {
      if SameText(name, other) {
        assert SameText(changed[at].name, other);
        var i := Position(changed, other);
        if i < at { assert SameText(curves[i].name, name); }
      } else {
        SameAs(curves, changed, other);
        if at < |curves| && Position(curves, other) == at { assert false; }
      }
    }
  }

  // ---------------------------------------------------------------- settling

  /** A non-positive number gives way to its default. */
  function Or(x: real, otherwise: real): real {
    if x <= 0.0 then otherwise else x
  }

  function Instant(k: nat): real {
    k as real / 1000.0
  }

  const STEPS := 10000

  ghost predicate SettledAt(at: real -> real, epsilon: real, k: nat) {
    && k < STEPS
    && (forall j: nat {:trigger Instant(j)} :: k < j < STEPS ==> 1.0 - epsilon <= at(Instant(j)) <= 1.0 + epsilon)
    && (k > 0 ==> at(Instant(k)) < 1.0 - epsilon || 1.0 + epsilon < at(Instant(k)))
  }

  /** No sample from `settle` milliseconds to the ten second limit is further
    * than epsilon from the end, and the sample just before is, unless it is the
    * very first. */
  ghost predicate Settled(at: real -> real, epsilon: real, settle: real) {
    exists k: nat :: SettledAt(at, epsilon, k) && settle == (Instant(k) + 0.001) * 1000.0
  }

  /** spring_settle_ms. */
  method SettleTime(at: real -> real, epsilon: real) returns (settle: real)
    ensures Settled(at, epsilon, settle) && 0.0 < settle <= 10000.0
  {
    var last := 0;
    var k := 0;
    while k < STEPS
      invariant 0 <= last < STEPS && last <= k <= STEPS
      invariant forall j: nat {:trigger Instant(j)} :: last < j < k ==> Abs(at(Instant(j)) - 1.0) <= epsilon
      invariant last > 0 ==> Abs(at(Instant(last)) - 1.0) > epsilon
    {
      if Abs(at(Instant(k)) - 1.0) > epsilon {
        last := k;
      }
      k := k + 1;
    }
    settle := (Instant(last) + 0.001) * 1000.0;
    assert SettledAt(at, epsilon, last);
  }

  // ---------------------------------------------------------------- the registry

  class Registry {
    var curves: seq<Curve>

    ghost predicate Valid()
      reads this
    {
      WellDefined(curves)
    }

    constructor ()
      ensures Valid() && curves == []
    {
      curves := [];
    }

    method Find(name: string) returns (i: nat)
      ensures i == Position(curves, name)
    {
      i := 0;
      while i < |curves|
        invariant i <= |curves| && forall j {:trigger curves[j]} :: 0 <= j < i ==> !SameText(curves[j].name, name)
      {
        if SameText(curves[i].name, name) {
          return;
        }
        i := i + 1;
      }
    }

    method Slot(name: string, shape: Shape)
      requires Valid() && name != "" && Sound(shape)
      modifies this
      ensures Valid() && curves == Put(old(curves), name, shape)
    {
      Defines(curves, name, shape);
      var i := Find(name);
      if i < |curves| {
        curves := curves[i := Curve(curves[i].name, shape)];
      } else {
        curves := curves + [Curve(name, shape)];
      }
    }

    /** aiwr_curve_define: only x has to be monotone, so only x is clamped. */
    method Define(name: string, x1: real, y1: real, x2: real, y2: real) returns (ok: bool)
      requires Valid()
      modifies this
      ensures Valid() && ok == (name != "")
      ensures ok ==> Meaning(curves, name) == [Cubic(Clamp01(x1), y1, Clamp01(x2), y2)]
      ensures ok ==> forall other :: !SameText(name, other) ==> Meaning(curves, other) == Meaning(old(curves), other)
      ensures !ok ==> curves == old(curves)
    {
      if name == "" {
        return false;
      }
      ghost var shape := Cubic(Clamp01(x1), y1, Clamp01(x2), y2);
      Defines(curves, name, shape);
      assert SameText(name, name);
      Slot(name, Cubic(Clamp01(x1), y1, Clamp01(x2), y2));
      ok := true;
    }

    /** aiwr_curve_define_spring: `motion` is the oscillator those numbers give. */
    method DefineSpring(name: string, damping: real, stiffness: real, mass: real, epsilon: real,
                        motion: (real, real, real, real) -> real) returns (ok: bool)
      requires Valid()
      modifies this
      ensures Valid() && ok == (name != "" && stiffness > 0.0)
      ensures var d, m := if damping > 0.0 then damping else 1.0, if mass > 0.0 then mass else 1.0;
              var e := if epsilon > 0.0 then epsilon else 0.0001;
              ok ==> exists settle ::
                Meaning(curves, name) == [Spring(d, stiffness, m, e, settle)]
                && Settled(t => motion(d, stiffness, m, t), e, settle)
      ensures ok ==> forall other :: !SameText(name, other) ==> Meaning(curves, other) == Meaning(old(curves), other)
      ensures !ok ==> curves == old(curves)
    {
      if name == "" || stiffness <= 0.0 {
        return false;
      }
      var d, m, e := Or(damping, 1.0), Or(mass, 1.0), Or(epsilon, 0.0001);
      var settle := SettleTime(t => motion(d, stiffness, m, t), e);
      Defines(curves, name, Spring(d, stiffness, m, e, settle));
      assert SameText(name, name);
      Slot(name, Spring(d, stiffness, m, e, settle));
      ok := true;
    }
  }

  // ---------------------------------------------------------------- evaluation

  function Portion(x: real, u: real): (r: real)
    requires Unit(u)
    ensures u == 0.0 ==> r == 0.0
    ensures u == 1.0 ==> r == x
    ensures 0.0 < u < 1.0 && x > 0.0 ==> 0.0 < r < x
  {
    assert x > 0.0 && u > 0.0 ==> x * u > 0.0;
    assert x > 0.0 && u < 1.0 ==> x * (1.0 - u) > 0.0;
    assert x * (1.0 - u) == x - x * u;
    x * u
  }

  function Cube(u: real): (r: real)
    requires Unit(u)
    ensures u == 0.0 ==> r == 0.0
    ensures u == 1.0 ==> r == 1.0
    ensures 0.0 < u < 1.0 ==> 0.0 < r < u
  {
    Portion(Portion(u, u), u)
  }

  /** The share p of a time. */
  function Elapsed(p: real, seconds: real): real {
    p * seconds
  }

  /** The shape without a curve: ahead of linear time throughout. */
  function EaseOutCubic(p: real): (r: real)
    requires Unit(p)
    ensures p == 0.0 ==> r == 0.0
    ensures p == 1.0 ==> r == 1.0
    ensures 0.0 < p < 1.0 ==> p < r < 1.0
  {
    1.0 - Cube(1.0 - p)
  }

  /** A curve strictly between its ends. */
  method Within(shape: Shape, p: real, motion: (Shape, real) -> real) returns (r: real)
    requires Sound(shape) && 0.0 < p < 1.0
    ensures shape.Cubic? ==> Solved(shape.x1, shape.y1, shape.x2, shape.y2, p, r)
    ensures shape.Spring? ==> r == motion(shape, Elapsed(p, shape.settle / 1000.0))
  {
    match shape {
      case Spring(_, _, _, _, settle) =>
        var seconds := settle / 1000.0;
        if seconds <= 0.0 {
          assert false;
        }
        r := motion(shape, Elapsed(p, seconds));
      case Cubic(x1, y1, x2, y2) =>
        r := BezierEval(x1, y1, x2, y2, p);
    }
  }

  /** aiwr_curve_eval: every curve starts at 0 and ends at 1, exactly.  Without
    * a curve the shape is ease-out cubic; a spring is sampled from `motion` at
    * that share of its settle time. */
  method CurveEval(curve: seq<Shape>, q: real, motion: (Shape, real) -> real) returns (r: real)
    requires |curve| <= 1
    requires curve != [] ==> Sound(curve[0])
    ensures q <= 0.0 ==> r == 0.0
    ensures q >= 1.0 ==> r == 1.0
    ensures curve == [] && 0.0 < q < 1.0 ==> q < r < 1.0 && 1.0 - r == (1.0 - q) * (1.0 - q) * (1.0 - q)
    ensures 0.0 < q < 1.0 && curve != [] && curve[0].Cubic? ==>
              Solved(curve[0].x1, curve[0].y1, curve[0].x2, curve[0].y2, q, r)
    ensures 0.0 < q < 1.0 && curve != [] && curve[0].Spring? ==>
            r == motion(curve[0], Elapsed(q, curve[0].settle / 1000.0))
  {
    var p := Clamp01(q);
    if curve == [] {
      r := EaseOutCubic(p);
    } else if p <= 0.0 {
      r := 0.0;
    } else if p >= 1.0 {
      r := 1.0;
    } else {
      assert p == q;
      r := Within(curve[0], q, motion);
    }
  }
}
