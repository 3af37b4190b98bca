/** gaps_update and cmd_gaps in place. */
module GapsOps {
  import opened Order
  import opened Gaps

  /** What holds a gaps_t: the configuration, or a workspace. */
  class GapHolder {
    var gaps: GapSizes

    constructor (gaps: GapSizes)
      ensures this.gaps == gaps
    {
      this.gaps := gaps;
    }
  }

  /** The workspaces of all outputs. */
  function Flat<T>(outputs: seq<seq<T>>): seq<T> {
    if outputs == [] then [] else outputs[0] + Flat(outputs[1..])
  }

  ghost function Sizes(s: seq<GapHolder>): (r: seq<GapSizes>)
    reads s
    ensures |r| == |s| && forall i :: 0 <= i < |s| ==> r[i] == s[i].gaps
  {
    seq(|s|, i requires 0 <= i < |s| reads s => s[i].gaps)
  }

  ghost function StateOf(config: GapHolder, all: seq<GapHolder>): State
    reads config, all
  {
    State(config.gaps, Sizes(all))
  }

  /** The inner loop, over the workspaces of one output. */
  method AdjustOutput(workspaces: seq<GapHolder>, config: GapHolder, side: Side, mode: Mode, value: int)
    requires Distinct(workspaces) && config !in workspaces
    modifies workspaces
    ensures forall ws :: ws in workspaces ==> ws.gaps == Adjusted(config.gaps, old(ws.gaps), side, mode, value)
  {
    var slack := if side == Inner then 0 else config.gaps.inner;
    var i := 0;
    while i < |workspaces|
      invariant i <= |workspaces|
      invariant config.gaps == old(config.gaps)
      invariant forall k :: 0 <= k < i ==>
                workspaces[k].gaps == Adjusted(config.gaps, old(workspaces[k].gaps), side, mode, value)
      invariant forall k :: i <= k < |workspaces| ==> workspaces[k].gaps == old(workspaces[k].gaps)
    {
      var ws := workspaces[i];
      if Resets(mode) {
        ws.gaps := ws.gaps.Put(side, 0);
      } else if ws.gaps.Get(side) + value + slack < 0 {
        ws.gaps := ws.gaps.Put(side, -value - slack);
      }
      i := i + 1;
    }
  }

  lemma {:induction false} FlatJoin<T>(a: seq<seq<T>>, b: seq<seq<T>>)
    ensures Flat(a + b) == Flat(a) + Flat(b)
    decreases |a|
  {
    if a == [] {
      assert a + b == b;
    } else {
      assert (a + b)[1..] == a[1..] + b;
      FlatJoin(a[1..], b);
      assert Flat(a) == a[0] + Flat(a[1..]);
    }
  }

  /** Where the workspaces of output `i` are among all. */
  lemma FlatAt<T>(outputs: seq<seq<T>>, i: nat)
    requires i < |outputs|
    ensures var p := |Flat(outputs[..i])|;
            && p + |outputs[i]| <= |Flat(outputs)| && |Flat(outputs[..i + 1])| == p + |outputs[i]|
            && Flat(outputs)[p..p + |outputs[i]|] == outputs[i]
  {
    var a, b, c := outputs[..i], [outputs[i]], outputs[i + 1..];
    assert outputs == (a + b) + c && outputs[..i + 1] == a + b;
    assert b[1..] == [] && Flat(b) == outputs[i];
    FlatJoin(a + b, c);
    FlatJoin(a, b);
  }

  /** One output, seen as a stretch of all workspaces. */
  method AdjustSlice(workspaces: seq<GapHolder>, ghost all: seq<GapHolder>, ghost p: nat,
                     config: GapHolder, side: Side, mode: Mode, value: int)
    requires Distinct(all) && config !in all && p + |workspaces| <= |all| && all[p..p + |workspaces|] == workspaces
    modifies workspaces
    ensures forall k :: 0 <= k < |all| ==>
      all[k].gaps == if p <= k < p + |workspaces| then Adjusted(config.gaps, old(all[k].gaps), side, mode, value)
        else old(all[k].gaps)
  {
    forall i | 0 <= i < |workspaces| ensures workspaces[i] == all[p + i] {
    }
    AdjustOutput(workspaces, config, side, mode, value);
    forall k | 0 <= k < |all| ensures all[k] in workspaces <==> p <= k < p + |workspaces| {
      if p <= k < p + |workspaces| {
        assert workspaces[k - p] == all[k];
      }
    }
  }

  /** The outer loop: every workspace of every output. */
  method AdjustEverywhere(outputs: seq<seq<GapHolder>>, config: GapHolder, side: Side, mode: Mode, value: int)
    requires Distinct(Flat(outputs)) && config !in Flat(outputs)
    modifies Flat(outputs)
    ensures Sizes(Flat(outputs)) == AdjustAll(config.gaps, old(Sizes(Flat(outputs))), side, mode, value)
  {
    ghost var all, s := Flat(outputs), Sizes(Flat(outputs));
    ghost var p := 0;
    var i := 0;
    assert Flat(outputs[..0]) == [];
    while i < |outputs|
      invariant i <= |outputs| && config.gaps == old(config.gaps)
      invariant p == |Flat(outputs[..i])| <= |all|
      invariant forall k :: 0 <= k < p ==> all[k].gaps == Adjusted(config.gaps, s[k], side, mode, value)
      invariant forall k :: p <= k < |all| ==> all[k].gaps == s[k]
    {
      FlatAt(outputs, i);
      AdjustSlice(outputs[i], all, p, config, side, mode, value);
      p := p + |outputs[i]|;
      i := i + 1;
    }
    assert outputs[..i] == outputs;
  }

  /** The value asked for, limited from below; unless the mode is unknown. */
  method ComputeValue(config: GapHolder, workspace: GapHolder, side: Side, scope: Scope, mode: Mode, pixels: int)
    returns (ok: bool, current: int)
    ensures ok <==> mode != UnknownMode
    ensures ok ==> current == Limited(config.gaps, workspace.gaps, side, scope, mode, pixels)
  {
    current := config.gaps.Get(side);
    if scope == Current {
      current := current + workspace.gaps.Get(side);
    }
    match mode {
      case Plus => current := current + pixels;
      case Minus => current := current - pixels;
      case SetTo => current := pixels;
      case Toggle => current := if current == 0 then pixels else 0;
      case UnknownMode => return false, current;
    }
    var least := 0;
    if side != Inner {
      if scope == All {
        least := -config.gaps.inner;
      } else {
        least := -config.gaps.inner - workspace.gaps.inner;
      }
    }
    if current < least {
      current := least;
    }
    ok := true;
  }

  /** Writing the limited value. */
  method Apply(config: GapHolder, outputs: seq<seq<GapHolder>>, workspace: GapHolder, ghost w: nat,
               side: Side, scope: Scope, mode: Mode, value: int, globalGapSize: int)
    requires Distinct(Flat(outputs)) && config !in Flat(outputs)
    requires w < |Flat(outputs)| && Flat(outputs)[w] == workspace
    modifies config, Flat(outputs)
    ensures var s := old(StateOf(config, Flat(outputs)));
            StateOf(config, Flat(outputs)) ==
              if scope == All then State(s.config.Put(side, value),
                AdjustAll(s.config, s.workspaces, side, mode, value))
              else State(s.config, s.workspaces[w := s.workspaces[w].Put(side, value - globalGapSize)])
  {
    if scope == All {
      AdjustEverywhere(outputs, config, side, mode, value);
      config.gaps := config.gaps.Put(side, value);
    } else {
      workspace.gaps := workspace.gaps.Put(side, value - globalGapSize);
    }
  }

  /** gaps_update; `w` is the position of the focused workspace among all. */
  method GapsUpdate(config: GapHolder, outputs: seq<seq<GapHolder>>, workspace: GapHolder, ghost w: nat,
                    side: Side, scope: Scope, mode: Mode, pixels: int) returns (ok: bool)
    requires Distinct(Flat(outputs)) && config !in Flat(outputs)
    requires w < |Flat(outputs)| && Flat(outputs)[w] == workspace
    modifies config, Flat(outputs)
    ensures (ok, StateOf(config, Flat(outputs))) ==
            Update(old(StateOf(config, Flat(outputs))), w, side, scope, mode, pixels)
  {
    ghost var s := StateOf(config, Flat(outputs));
    assert s.config == config.gaps && s.workspaces[w] == workspace.gaps;
    var globalGapSize := config.gaps.Get(side);
    var value := 0;
    ok, value := ComputeValue(config, workspace, side, scope, mode, pixels);
    assert ok ==> value == Limited(s.config, s.workspaces[w], side, scope, mode, pixels);
    if !ok {
      assert Update(s, w, side, scope, mode, pixels) == (false, s);
    } else {
      Apply(config, outputs, workspace, w, side, scope, mode, value, globalGapSize);
    }
  }

  /** The updates of one command, up to the first that fails. */
  method UpdateSides(config: GapHolder, outputs: seq<seq<GapHolder>>, workspace: GapHolder, ghost w: nat,
                     sides: seq<Side>, scope: Scope, mode: Mode, pixels: int) returns (ok: bool)
    requires Distinct(Flat(outputs)) && config !in Flat(outputs)
    requires w < |Flat(outputs)| && Flat(outputs)[w] == workspace
    modifies config, Flat(outputs)
    ensures (ok, StateOf(config, Flat(outputs))) ==
            Updates(old(StateOf(config, Flat(outputs))), w, sides, scope, mode, pixels)
    decreases |sides|
  {
    if sides == [] {
      return true;
    }
    ok := GapsUpdate(config, outputs, workspace, w, sides[0], scope, mode, pixels);
    if ok {
      ok := UpdateSides(config, outputs, workspace, w, sides[1..], scope, mode, pixels);
    }
  }

  /** cmd_gaps */
  method CmdGaps(config: GapHolder, outputs: seq<seq<GapHolder>>, workspace: GapHolder, ghost w: nat,
                 kind: Kind, scope: Scope, mode: Mode, pixels: int) returns (ok: bool)
    requires Distinct(Flat(outputs)) && config !in Flat(outputs)
    requires w < |Flat(outputs)| && Flat(outputs)[w] == workspace
    modifies config, Flat(outputs)
    ensures (ok, StateOf(config, Flat(outputs))) ==
            Command(old(StateOf(config, Flat(outputs))), w, kind, scope, mode, pixels)
  {
    match kind
    case InnerGaps =>
      ok := GapsUpdate(config, outputs, workspace, w, Inner, scope, mode, pixels);
      if ok {
        ok := UpdateSides(config, outputs, workspace, w, [Top, Bottom, Right, Left], All, Plus, 0);
      }
    case Outer => ok := UpdateSides(config, outputs, workspace, w, [Top, Bottom, Right, Left], scope, mode, pixels);
    case Vertical => ok := UpdateSides(config, outputs, workspace, w, [Top, Bottom], scope, mode, pixels);
    case Horizontal => ok := UpdateSides(config, outputs, workspace, w, [Right, Left], scope, mode, pixels);
    case TopGap => ok := GapsUpdate(config, outputs, workspace, w, Top, scope, mode, pixels);
    case BottomGap => ok := GapsUpdate(config, outputs, workspace, w, Bottom, scope, mode, pixels);
    case RightGap => ok := GapsUpdate(config, outputs, workspace, w, Right, scope, mode, pixels);
    case LeftGap => ok := GapsUpdate(config, outputs, workspace, w, Left, scope, mode, pixels);
    case UnknownKind => ok := false;
  }
}
