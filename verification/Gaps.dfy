/** The `gaps` command: global gaps and each workspace's own, kept from adding up
  * to something negative. */
module Gaps {

  datatype Side = Inner | Top | Right | Bottom | Left

  datatype GapSizes = GapSizes(inner: int, top: int, right: int, bottom: int, left: int) {
    function Get(side: Side): int {
      match side
      case Inner => inner
      case Top => top
      case Right => right
      case Bottom => bottom
      case Left => left
    }

    function Put(side: Side, px: int): (g: GapSizes)
      ensures g.Get(side) == px && forall other :: other != side ==> g.Get(other) == Get(other)
    {
      match side
      case Inner => this.(inner := px)
      case Top => this.(top := px)
      case Right => this.(right := px)
      case Bottom => this.(bottom := px)
      case Left => this.(left := px)
    }
  }

  datatype Scope = All | Current

  datatype Mode = Plus | Minus | SetTo | Toggle | UnknownMode

  datatype Kind = InnerGaps | Outer | Vertical | Horizontal | TopGap | RightGap | BottomGap | LeftGap | UnknownKind

  /** config.gaps and the gaps of every workspace on every output. */
  datatype State = State(config: GapSizes, workspaces: seq<GapSizes>)

  // ---------------------------------------------------------------- gaps_update

  function Resets(mode: Mode): bool {
    mode == SetTo || mode == Toggle
  }

  /** The value asked for, before it is limited. */
  function Wanted(value: int, mode: Mode, pixels: int): int
    requires mode != UnknownMode
  {
    match mode
    case Plus => value + pixels
    case Minus => value - pixels
    case SetTo => pixels
    case Toggle => if value == 0 then pixels else 0
  }

  function Max(a: int, b: int): int {
    if a < b then b else a
  }

  /** Outer gaps can make up for inner gaps, and no more. */
  function Limited(config: GapSizes, ws: GapSizes, side: Side, scope: Scope, mode: Mode, pixels: int): int
    requires mode != UnknownMode
  {
    var start := config.Get(side) + if scope == Current then ws.Get(side) else 0;
    var least := if side == Inner then 0 else if scope == All then -config.inner else -config.inner - ws.inner;
    Max(Wanted(start, mode, pixels), least)
  }

  /** What an update for all does to one workspace. */
  function Adjusted(config: GapSizes, ws: GapSizes, side: Side, mode: Mode, value: int): GapSizes {
    var slack := if side == Inner then 0 else config.inner;
    if Resets(mode) then ws.Put(side, 0)
    else if ws.Get(side) + value + slack < 0 then ws.Put(side, -value - slack)
    else ws
  }

  function AdjustAll(config: GapSizes, workspaces: seq<GapSizes>, side: Side, mode: Mode,
                     value: int): (r: seq<GapSizes>)
    ensures |r| == |workspaces|
    ensures forall i :: 0 <= i < |r| ==> r[i] == Adjusted(config, workspaces[i], side, mode, value)
  {
    if workspaces == [] then []
    else [Adjusted(config, workspaces[0], side, mode, value)] + AdjustAll(config, workspaces[1..], side, mode, value)
  }

  /** gaps_update with `w` the workspace that has the focus. */
  function Update(s: State, w: nat, side: Side, scope: Scope, mode: Mode, pixels: int): (r: (bool, State))
    requires w < |s.workspaces|
    ensures |r.1.workspaces| == |s.workspaces|
  {
    if mode == UnknownMode then (false, s)
    else
      var value := Limited(s.config, s.workspaces[w], side, scope, mode, pixels);
      if scope == All then
        (true, State(s.config.Put(side, value), AdjustAll(s.config, s.workspaces, side, mode, value)))
      else
        (true, State(s.config, s.workspaces[w := s.workspaces[w].Put(side, value - s.config.Get(side))]))
  }

  /** Updates one after the other, stopping at the first that fails. */
  function Updates(s: State, w: nat, sides: seq<Side>, scope: Scope, mode: Mode, pixels: int): (r: (bool, State))
    requires w < |s.workspaces|
    ensures |r.1.workspaces| == |s.workspaces|
    decreases |sides|
  {
    if sides == [] then (true, s)
    else
      var (ok, t) := Update(s, w, sides[0], scope, mode, pixels);
      if !ok then (false, t) else Updates(t, w, sides[1..], scope, mode, pixels)
  }

  /** cmd_gaps.  After an inner update every outer gap is limited anew. */
  function Command(s: State, w: nat, kind: Kind, scope: Scope, mode: Mode, pixels: int): (r: (bool, State))
    requires w < |s.workspaces|
    ensures |r.1.workspaces| == |s.workspaces|
  {
    match kind
    case InnerGaps =>
      var (ok, t) := Update(s, w, Inner, scope, mode, pixels);
      if !ok then (false, t) else Updates(t, w, [Top, Bottom, Right, Left], All, Plus, 0)
    case Outer => Updates(s, w, [Top, Bottom, Right, Left], scope, mode, pixels)
    case Vertical => Updates(s, w, [Top, Bottom], scope, mode, pixels)
    case Horizontal => Updates(s, w, [Right, Left], scope, mode, pixels)
    case TopGap => Update(s, w, Top, scope, mode, pixels)
    case BottomGap => Update(s, w, Bottom, scope, mode, pixels)
    case RightGap => Update(s, w, Right, scope, mode, pixels)
    case LeftGap => Update(s, w, Left, scope, mode, pixels)
    case UnknownKind => (false, s)
  }

  // ---------------------------------------------------------------- the invariant

  /** One workspace against the configuration, on one outer side. */
  ghost predicate SideFits(config: GapSizes, ws: GapSizes, side: Side) {
    ws.Get(side) + config.Get(side) + config.inner + Max(0, ws.inner) >= 0
  }

  ghost predicate SideHolds(s: State, side: Side) {
    && s.config.Get(side) >= -s.config.inner
    && (forall i :: 0 <= i < |s.workspaces| ==> SideFits(s.config, s.workspaces[i], side))
  }

  ghost predicate InnerHolds(s: State) {
    && s.config.inner >= 0
    && (forall i :: 0 <= i < |s.workspaces| ==> s.config.inner + s.workspaces[i].inner >= 0)
  }

  ghost predicate Holds(s: State) {
    InnerHolds(s) && forall side :: side != Inner ==> SideHolds(s, side)
  }

  /** One workspace when a side is set to a value within its limit. */
  lemma AdjustedFits(config: GapSizes, ws: GapSizes, side: Side, mode: Mode, value: int, other: Side)
    requires side != Inner && other != Inner && value >= -config.inner && config.inner + ws.inner >= 0
    ensures var a := Adjusted(config, ws, side, mode, value);
            && a.inner == ws.inner && SideFits(config.Put(side, value), a, side)
            && (SideFits(config, ws, other) ==> SideFits(config.Put(side, value), a, other))
  {
  }

  lemma OuterUpdateAll(s: State, w: nat, side: Side, mode: Mode, pixels: int, other: Side)
    requires w < |s.workspaces| && InnerHolds(s) && side != Inner && mode != UnknownMode && other != Inner
    ensures var t := Update(s, w, side, All, mode, pixels).1;
            && InnerHolds(t) && t.config.inner == s.config.inner && SideHolds(t, side)
            && (SideHolds(s, other) ==> SideHolds(t, other))
  {
    var value := Limited(s.config, s.workspaces[w], side, All, mode, pixels);
    var t := Update(s, w, side, All, mode, pixels).1;
    forall i | 0 <= i < |t.workspaces|
      ensures t.workspaces[i].inner == s.workspaces[i].inner && SideFits(t.config, t.workspaces[i], side)
      ensures SideFits(s.config, s.workspaces[i], other) ==> SideFits(t.config, t.workspaces[i], other)
    {
      AdjustedFits(s.config, s.workspaces[i], side, mode, value, other);
    }
  }

  lemma OuterUpdateCurrent(s: State, w: nat, side: Side, mode: Mode, pixels: int, other: Side)
    requires w < |s.workspaces| && InnerHolds(s) && side != Inner && mode != UnknownMode && other != Inner
    ensures var t := Update(s, w, side, Current, mode, pixels).1;
            && InnerHolds(t) && t.config.inner == s.config.inner
            && (SideHolds(s, other) ==> SideHolds(t, other))
  {
  }

  lemma OuterUpdateKeeps(s: State, w: nat, side: Side, scope: Scope, mode: Mode, pixels: int)
    requires w < |s.workspaces| && InnerHolds(s) && side != Inner
    ensures var t := Update(s, w, side, scope, mode, pixels).1;
            && InnerHolds(t) && t.config.inner == s.config.inner
            && (scope == All && mode != UnknownMode ==> SideHolds(t, side))
            && (forall other :: other != Inner && SideHolds(s, other) ==> SideHolds(t, other))
  {
    if mode != UnknownMode {
      forall other | other != Inner && SideHolds(s, other)
        ensures SideHolds(Update(s, w, side, scope, mode, pixels).1, other)
      {
        if scope == All {
          OuterUpdateAll(s, w, side, mode, pixels, other);
        } else {
          OuterUpdateCurrent(s, w, side, mode, pixels, other);
        }
      }
      if scope == All {
        OuterUpdateAll(s, w, side, mode, pixels, Top);
      } else {
        OuterUpdateCurrent(s, w, side, mode, pixels, Top);
      }
    }
  }

  lemma InnerUpdateKeeps(s: State, w: nat, scope: Scope, mode: Mode, pixels: int)
    requires w < |s.workspaces| && InnerHolds(s)
    ensures InnerHolds(Update(s, w, Inner, scope, mode, pixels).1)
  {
  }

  lemma {:induction false} OuterUpdatesKeep(s: State, w: nat, sides: seq<Side>, scope: Scope, mode: Mode, pixels: int)
    requires w < |s.workspaces| && Holds(s) && Inner !in sides
    ensures Holds(Updates(s, w, sides, scope, mode, pixels).1)
    decreases |sides|
  {
    if sides != [] {
      OuterUpdateKeeps(s, w, sides[0], scope, mode, pixels);
      var (ok, t) := Update(s, w, sides[0], scope, mode, pixels);
      OuterUpdatesKeep(t, w, sides[1..], scope, mode, pixels);
    }
  }

  /** The no-op updates after an inner one bring every side back into line. */
  lemma RelimitAll(s: State, w: nat)
    requires w < |s.workspaces| && InnerHolds(s)
    ensures Updates(s, w, [Top, Bottom, Right, Left], All, Plus, 0).0
    ensures Holds(Updates(s, w, [Top, Bottom, Right, Left], All, Plus, 0).1)
  {
    OuterUpdateKeeps(s, w, Top, All, Plus, 0);
    var a := Update(s, w, Top, All, Plus, 0).1;
    OuterUpdateKeeps(a, w, Bottom, All, Plus, 0);
    var b := Update(a, w, Bottom, All, Plus, 0).1;
    OuterUpdateKeeps(b, w, Right, All, Plus, 0);
    var c := Update(b, w, Right, All, Plus, 0).1;
    OuterUpdateKeeps(c, w, Left, All, Plus, 0);
    var d := Update(c, w, Left, All, Plus, 0).1;
    assert [Top, Bottom, Right, Left][1..] == [Bottom, Right, Left];
    assert [Bottom, Right, Left][1..] == [Right, Left];
    assert [Right, Left][1..] == [Left];
    assert [Left][1..] == [];
    assert Updates(d, w, [], All, Plus, 0) == (true, d);
    assert Updates(c, w, [Left], All, Plus, 0) == (true, d);
    assert Updates(b, w, [Right, Left], All, Plus, 0) == (true, d);
    assert Updates(a, w, [Bottom, Right, Left], All, Plus, 0) == (true, d);
  }

  lemma CommandKeeps(s: State, w: nat, kind: Kind, scope: Scope, mode: Mode, pixels: int)
    requires w < |s.workspaces| && Holds(s)
    ensures Holds(Command(s, w, kind, scope, mode, pixels).1)
  {
    match kind
    case InnerGaps =>
      InnerUpdateKeeps(s, w, scope, mode, pixels);
      RelimitAll(Update(s, w, Inner, scope, mode, pixels).1, w);
    case Outer => OuterUpdatesKeep(s, w, [Top, Bottom, Right, Left], scope, mode, pixels);
    case Vertical => OuterUpdatesKeep(s, w, [Top, Bottom], scope, mode, pixels);
    case Horizontal => OuterUpdatesKeep(s, w, [Right, Left], scope, mode, pixels);
    case TopGap => OuterUpdateKeeps(s, w, Top, scope, mode, pixels);
    case BottomGap => OuterUpdateKeeps(s, w, Bottom, scope, mode, pixels);
    case RightGap => OuterUpdateKeeps(s, w, Right, scope, mode, pixels);
    case LeftGap => OuterUpdateKeeps(s, w, Left, scope, mode, pixels);
    case UnknownKind =>
  }

  datatype Step = Step(focus: nat, kind: Kind, scope: Scope, mode: Mode, pixels: int)

  function Run(s: State, steps: seq<Step>): (t: State)
    requires forall i :: 0 <= i < |steps| ==> steps[i].focus < |s.workspaces|
    decreases |steps|
  {
    if steps == [] then s
    else
      var a := steps[0];
      Run(Command(s, a.focus, a.kind, a.scope, a.mode, a.pixels).1, steps[1..])
  }

  /** No command of it is left out: each works on what the ones before it left. */
  lemma {:induction false} RunSteps(s: State, steps: seq<Step>, a: Step)
    requires a.focus < |s.workspaces| && forall i :: 0 <= i < |steps| ==> steps[i].focus < |s.workspaces|
    ensures |Run(s, steps).workspaces| == |s.workspaces|
    ensures Run(s, steps + [a]) == Command(Run(s, steps), a.focus, a.kind, a.scope, a.mode, a.pixels).1
    decreases |steps|
  {
    if steps == [] {
      assert steps + [a] == [a];
    } else {
      assert (steps + [a])[0] == steps[0] && (steps + [a])[1..] == steps[1..] + [a];
      var b := steps[0];
      RunSteps(Command(s, b.focus, b.kind, b.scope, b.mode, b.pixels).1, steps[1..], a);
    }
  }

  /** Over every sequence of commands, whichever workspace has the focus. */
  lemma {:induction false} RunKeeps(s: State, steps: seq<Step>)
    requires Holds(s) && forall i :: 0 <= i < |steps| ==> steps[i].focus < |s.workspaces|
    ensures Holds(Run(s, steps))
    decreases |steps|
  {
    if steps != [] {
      var a := steps[0];
      CommandKeeps(s, a.focus, a.kind, a.scope, a.mode, a.pixels);
      RunKeeps(Command(s, a.focus, a.kind, a.scope, a.mode, a.pixels).1, steps[1..]);
    }
  }

  // ---------------------------------------------------------------- what does not hold

  /** An outer gap and the inner gap of workspace `i`, both as drawn. */
  function Effective(s: State, i: nat, side: Side): int
    requires i < |s.workspaces|
  {
    s.workspaces[i].Get(side) + s.config.Get(side) + s.config.inner + s.workspaces[i].inner
  }

  /** An update for all limits the side by the global inner gap alone.  So the two
    * together stay non-negative for a workspace whose own inner gap is not
    * negative; for any other exactly when the limited value, on top of what the
    * workspace has and keeps of its own, covers its inner gap. */
  lemma UpdateForAll(s: State, w: nat, side: Side, mode: Mode, pixels: int, i: nat)
    requires w < |s.workspaces| && i < |s.workspaces| && side != Inner && mode != UnknownMode
    ensures var value := Max(Wanted(s.config.Get(side), mode, pixels), -s.config.inner);
            var own := if Resets(mode) then 0 else s.workspaces[i].Get(side);
            Effective(Update(s, w, side, All, mode, pixels).1, i, side) >= 0 <==>
              s.workspaces[i].inner >= 0 || own + value + s.config.inner + s.workspaces[i].inner >= 0
  {
    var ws := s.workspaces[i];
    var value := Max(Wanted(s.config.Get(side), mode, pixels), -s.config.inner);
    var t := Update(s, w, side, All, mode, pixels).1;
    assert t.workspaces[i] == Adjusted(s.config, ws, side, mode, value);
    assert t.config.Get(side) == value && t.config.inner == s.config.inner && t.workspaces[i].inner == ws.inner;
  }

  /** For the current workspace they always stay non-negative. */
  lemma SetForCurrent(s: State, w: nat, side: Side, mode: Mode, pixels: int)
    requires w < |s.workspaces| && side != Inner && mode != UnknownMode
    ensures Effective(Update(s, w, side, Current, mode, pixels).1, w, side) >= 0
  {
  }

  /** Global inner and top gap, and one workspace's own inner gap. */
  function Stage(inner: int, top: int, own: int): State {
    State(GapSizes(inner, top, 0, 0, 0), [GapSizes(own, 0, 0, 0, 0)])
  }

  lemma PutBack(g: GapSizes, side: Side)
    ensures g.Put(side, g.Get(side)) == g
  {
  }

  lemma NoChangeOne(s: State, w: nat, side: Side)
    requires w < |s.workspaces| && s.config.Get(side) >= -s.config.inner && side != Inner
    requires forall i :: 0 <= i < |s.workspaces| ==>
             s.workspaces[i].Get(side) + s.config.Get(side) + s.config.inner >= 0
    ensures Update(s, w, side, All, Plus, 0) == (true, s)
  {
    var t := Update(s, w, side, All, Plus, 0).1;
    assert t.workspaces == s.workspaces;
    PutBack(s.config, side);
  }

  /** Limiting anew what is within the limits changes nothing. */
  lemma NoChange(s: State, w: nat)
    requires w < |s.workspaces| && Holds(s)
    requires forall i, side :: 0 <= i < |s.workspaces| && side != Inner ==>
             s.workspaces[i].Get(side) + s.config.Get(side) + s.config.inner >= 0
    ensures Updates(s, w, [Top, Bottom, Right, Left], All, Plus, 0) == (true, s)
  {
    assert SideHolds(s, Top) && SideHolds(s, Bottom) && SideHolds(s, Right) && SideHolds(s, Left);
    NoChangeOne(s, w, Top);
    NoChangeOne(s, w, Bottom);
    NoChangeOne(s, w, Right);
    NoChangeOne(s, w, Left);
    assert [Top, Bottom, Right, Left][1..] == [Bottom, Right, Left];
    assert [Bottom, Right, Left][1..] == [Right, Left];
    assert [Right, Left][1..] == [Left];
    assert Updates(s, w, [Left], All, Plus, 0) == (true, s);
    assert Updates(s, w, [Right, Left], All, Plus, 0) == (true, s);
  }

  lemma FirstStage()
    ensures Command(Stage(0, 0, 0), 0, InnerGaps, All, SetTo, 5).1 == Stage(5, 0, 0)
  {
    NoChange(Stage(5, 0, 0), 0);
  }

  lemma SecondStage()
    ensures Command(Stage(5, 0, 0), 0, InnerGaps, Current, SetTo, 0).1 == Stage(5, 0, -5)
  {
    NoChange(Stage(5, 0, -5), 0);
    assert Update(Stage(5, 0, 0), 0, Inner, Current, SetTo, 0).1.workspaces == [GapSizes(-5, 0, 0, 0, 0)];
  }

  lemma ThirdStage()
    ensures Command(Stage(5, 0, -5), 0, TopGap, All, SetTo, -5).1 == Stage(5, -5, -5)
  {
  }

  lemma RunThree(s: State, a: Step, b: Step, c: Step)
    requires |s.workspaces| == 1 && a.focus == b.focus == c.focus == 0
    ensures var s1 := Command(s, 0, a.kind, a.scope, a.mode, a.pixels).1;
            var s2 := Command(s1, 0, b.kind, b.scope, b.mode, b.pixels).1;
            Run(s, [a, b, c]) == Command(s2, 0, c.kind, c.scope, c.mode, c.pixels).1
  {
    var s1 := Command(s, 0, a.kind, a.scope, a.mode, a.pixels).1;
    var s2 := Command(s1, 0, b.kind, b.scope, b.mode, b.pixels).1;
    assert [a, b, c][1..] == [b, c] && [b, c][1..] == [c];
    assert Run(s1, [b, c]) == Run(s2, [c]);
  }

  /** "gaps inner all set 5", "gaps inner current set 0", "gaps top all set -5"
    * leaves a workspace with an outer gap of -5 and no inner gap to make up. */
  lemma EffectiveCanBeNegative()
    ensures var zero := GapSizes(0, 0, 0, 0, 0);
            var t := Run(State(zero, [zero]), [Step(0, InnerGaps, All, SetTo, 5), Step(0, InnerGaps, Current, SetTo, 0),
              Step(0, TopGap, All, SetTo, -5)]);
            |t.workspaces| == 1 && Holds(t) && Effective(t, 0, Top) == -5
  {
    var a, b, c := Step(0, InnerGaps, All, SetTo, 5), Step(0, InnerGaps, Current, SetTo, 0),
      Step(0, TopGap, All, SetTo, -5);
    RunKeeps(Stage(0, 0, 0), [a, b, c]);
    FirstStage();
    SecondStage();
    ThirdStage();
    RunThree(Stage(0, 0, 0), a, b, c);
  }

  /** "gaps top all minus 5" does the same to it. */
  lemma MinusCanBeNegative()
    ensures var s := Stage(5, 0, -5);
            Holds(s) && Effective(Update(s, 0, Top, All, Minus, 5).1, 0, Top) == -5
  {
    var s := Stage(5, 0, -5);
    var t := Update(s, 0, Top, All, Minus, 5).1;
    assert t.workspaces[0] == Adjusted(s.config, s.workspaces[0], Top, Minus, -5);
  }
}
