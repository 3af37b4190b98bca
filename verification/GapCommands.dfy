/** What a gaps command changes, side by side, and what it leaves alone. */
module GapCommands {
  import opened Order
  import opened Gaps

  /** The sides a command is about. */
  predicate Names(kind: Kind, side: Side) {
    match kind
    case InnerGaps => side == Inner
    case Outer => side != Inner
    case Vertical => side == Top || side == Bottom
    case Horizontal => side == Left || side == Right
    case TopGap => side == Top
    case RightGap => side == Right
    case BottomGap => side == Bottom
    case LeftGap => side == Left
    case UnknownKind => false
  }

  /** A command asks for `asked` where `before` was. */
  predicate Asks(mode: Mode, pixels: int, before: int, asked: int) {
    match mode
    case Plus => asked - before == pixels
    case Minus => before - asked == pixels
    case SetTo => asked == pixels
    case Toggle => if before == 0 then asked == pixels else asked == 0
    case UnknownMode => false
  }

  /** It gets what it asks for, or the least that is allowed if that is more. */
  ghost predicate Gets(mode: Mode, pixels: int, before: int, least: int, after: int) {
    exists asked {:trigger Asks(mode, pixels, before, asked)} ::
      Asks(mode, pixels, before, asked) && after == if asked < least then least else asked
  }

  lemma WantedAsks(value: int, mode: Mode, pixels: int, least: int)
    requires mode != UnknownMode
    ensures Gets(mode, pixels, value, least, Max(Wanted(value, mode, pixels), least))
  {
    assert Asks(mode, pixels, value, Wanted(value, mode, pixels));
  }

  /** Nothing differs on this side. */
  ghost predicate SideKept(s: State, t: State, side: Side) {
    && |t.workspaces| == |s.workspaces| && t.config.Get(side) == s.config.Get(side)
    && forall i :: 0 <= i < |s.workspaces| ==> t.workspaces[i].Get(side) == s.workspaces[i].Get(side)
  }

  /** How far an outer side may make up for inner gaps. */
  function Slack(side: Side, inner: int): int {
    if side == Inner then 0 else inner
  }

  /** The side is set for the current workspace: what changes is the sum of the
    * global gap and its own, by changing its own. */
  ghost predicate SetHere(s: State, t: State, w: nat, side: Side, mode: Mode, pixels: int)
    requires w < |s.workspaces|
  {
    && |t.workspaces| == |s.workspaces| && t.config.Get(side) == s.config.Get(side)
    && (forall i :: 0 <= i < |s.workspaces| && i != w ==> t.workspaces[i].Get(side) == s.workspaces[i].Get(side))
    && Gets(mode, pixels, s.config.Get(side) + s.workspaces[w].Get(side),
            -Slack(side, s.config.inner + s.workspaces[w].inner), t.config.Get(side) + t.workspaces[w].Get(side))
  }

  /** The side is set for all: the global gap changes, and a workspace loses its
    * own gap, or with "plus" and "minus" as much of a negative one as would no
    * longer be made up for. */
  ghost predicate SetForAll(s: State, t: State, side: Side, mode: Mode, pixels: int) {
    && |t.workspaces| == |s.workspaces|
    && Gets(mode, pixels, s.config.Get(side), -Slack(side, s.config.inner), t.config.Get(side))
    && forall i :: 0 <= i < |s.workspaces| ==>
         t.workspaces[i].Get(side) ==
         if mode == SetTo || mode == Toggle then 0
         else Max(s.workspaces[i].Get(side), -t.config.Get(side) - Slack(side, s.config.inner))
  }

  ghost predicate SideSet(s: State, t: State, w: nat, side: Side, scope: Scope, mode: Mode, pixels: int)
    requires w < |s.workspaces|
  {
    if scope == All then SetForAll(s, t, side, mode, pixels) else SetHere(s, t, w, side, mode, pixels)
  }

  lemma UpdateSetsHere(s: State, w: nat, side: Side, mode: Mode, pixels: int)
    requires w < |s.workspaces| && mode != UnknownMode
    ensures var (ok, t) := Update(s, w, side, Current, mode, pixels); ok && SetHere(s, t, w, side, mode, pixels)
  {
    var start, least := s.config.Get(side) + s.workspaces[w].Get(side),
      -Slack(side, s.config.inner + s.workspaces[w].inner);
    WantedAsks(start, mode, pixels, least);
  }

  lemma UpdateSetsAll(s: State, w: nat, side: Side, mode: Mode, pixels: int)
    requires w < |s.workspaces| && mode != UnknownMode
    ensures var (ok, t) := Update(s, w, side, All, mode, pixels); ok && SetForAll(s, t, side, mode, pixels)
  {
    WantedAsks(s.config.Get(side), mode, pixels, -Slack(side, s.config.inner));
    var t := Update(s, w, side, All, mode, pixels).1;
    assert t.config.Get(side) == Limited(s.config, s.workspaces[w], side, All, mode, pixels);
    forall i | 0 <= i < |s.workspaces|
      ensures t.workspaces[i] == Adjusted(s.config, s.workspaces[i], side, mode, t.config.Get(side))
    {
    }
  }

  lemma UpdateKeepsOther(s: State, w: nat, side: Side, scope: Scope, mode: Mode, pixels: int, other: Side)
    requires w < |s.workspaces| && mode != UnknownMode && other != side
    ensures SideKept(s, Update(s, w, side, scope, mode, pixels).1, other)
  {
  }

  lemma UpdateSets(s: State, w: nat, side: Side, scope: Scope, mode: Mode, pixels: int)
    requires w < |s.workspaces| && mode != UnknownMode
    ensures var (ok, t) := Update(s, w, side, scope, mode, pixels); ok && SideSet(s, t, w, side, scope, mode, pixels)
    ensures forall other :: other != side ==> SideKept(s, Update(s, w, side, scope, mode, pixels).1, other)
  {
    forall other | other != side ensures SideKept(s, Update(s, w, side, scope, mode, pixels).1, other) {
      UpdateKeepsOther(s, w, side, scope, mode, pixels, other);
    }
    if scope == All {
      UpdateSetsAll(s, w, side, mode, pixels);
    } else {
      UpdateSetsHere(s, w, side, mode, pixels);
    }
  }

  /** What was set on a side stays so when another one is set. */
  lemma SetStays(s: State, t: State, u: State, w: nat, side: Side, scope: Scope, mode: Mode, pixels: int)
    requires w < |s.workspaces| && SideSet(s, t, w, side, scope, mode, pixels) && SideKept(t, u, side)
    ensures SideSet(s, u, w, side, scope, mode, pixels)
  {
  }

  lemma SetSince(s: State, t: State, u: State, w: nat, side: Side, scope: Scope, mode: Mode, pixels: int)
    requires w < |s.workspaces| && SideKept(s, t, side) && SideKept(s, t, Inner)
    requires SideSet(t, u, w, side, scope, mode, pixels)
    ensures SideSet(s, u, w, side, scope, mode, pixels)
  {
    assert s.config.inner == s.config.Get(Inner) && t.config.inner == t.config.Get(Inner);
    assert s.workspaces[w].inner == s.workspaces[w].Get(Inner) && t.workspaces[w].inner == t.workspaces[w].Get(Inner);
  }

  /** Each of the sides is set, as if alone, and no other. */
  ghost predicate SidesSet(s: State, t: State, w: nat, sides: seq<Side>, scope: Scope, mode: Mode, pixels: int)
    requires w < |s.workspaces|
  {
    forall side ::
      if side in sides then SideSet(s, t, w, side, scope, mode, pixels) else SideKept(s, t, side)
  }

  lemma KeptSince(s: State, t: State, u: State, side: Side)
    requires SideKept(s, t, side) && SideKept(t, u, side)
    ensures SideKept(s, u, side)
  {
  }

  lemma SetNext(s: State, t: State, u: State, w: nat, sides: seq<Side>, scope: Scope, mode: Mode, pixels: int,
                side: Side)
    requires w < |s.workspaces| && sides != [] && Distinct(sides) && Inner !in sides
    requires SideSet(s, t, w, sides[0], scope, mode, pixels) &&
             forall other :: other != sides[0] ==> SideKept(s, t, other)
    requires |t.workspaces| == |s.workspaces| && SidesSet(t, u, w, sides[1..], scope, mode, pixels)
    ensures if side in sides then SideSet(s, u, w, side, scope, mode, pixels) else SideKept(s, u, side)
  {
    assert sides[0] !in sides[1..] && (side in sides <==> side == sides[0] || side in sides[1..]);
    if side == sides[0] {
      SetStays(s, t, u, w, side, scope, mode, pixels);
    } else if side in sides {
      SetSince(s, t, u, w, side, scope, mode, pixels);
    } else {
      KeptSince(s, t, u, side);
    }
  }

  lemma {:induction false} UpdatesSet(s: State, w: nat, sides: seq<Side>, scope: Scope, mode: Mode, pixels: int)
    requires w < |s.workspaces| && mode != UnknownMode && Distinct(sides) && Inner !in sides
    ensures var (ok, t) := Updates(s, w, sides, scope, mode, pixels);
            ok && SidesSet(s, t, w, sides, scope, mode, pixels)
    decreases |sides|
  {
    if sides != [] {
      var t := Update(s, w, sides[0], scope, mode, pixels).1;
      var u := Updates(t, w, sides[1..], scope, mode, pixels).1;
      UpdateSets(s, w, sides[0], scope, mode, pixels);
      UpdatesSet(t, w, sides[1..], scope, mode, pixels);
      forall side ensures if side in sides then SideSet(s, u, w, side, scope, mode, pixels) else SideKept(s, u, side) {
        SetNext(s, t, u, w, sides, scope, mode, pixels, side);
      }
    }
  }

  function Sides(kind: Kind): seq<Side> {
    match kind
    case InnerGaps => [Inner]
    case Outer => [Top, Bottom, Right, Left]
    case Vertical => [Top, Bottom]
    case Horizontal => [Right, Left]
    case TopGap => [Top]
    case RightGap => [Right]
    case BottomGap => [Bottom]
    case LeftGap => [Left]
    case UnknownKind => []
  }

  lemma SidesNamed(kind: Kind, side: Side)
    ensures Distinct(Sides(kind)) && (side in Sides(kind) <==> Names(kind, side))
  {
  }

  lemma OneUpdate(s: State, w: nat, side: Side, scope: Scope, mode: Mode, pixels: int)
    requires w < |s.workspaces|
    ensures Updates(s, w, [side], scope, mode, pixels) == Update(s, w, side, scope, mode, pixels)
  {
  }

  lemma CommandUpdates(s: State, w: nat, kind: Kind, scope: Scope, mode: Mode, pixels: int)
    requires w < |s.workspaces| && kind != InnerGaps && kind != UnknownKind
    ensures Command(s, w, kind, scope, mode, pixels) == Updates(s, w, Sides(kind), scope, mode, pixels)
  {
    if |Sides(kind)| == 1 { OneUpdate(s, w, Sides(kind)[0], scope, mode, pixels); }
  }

  /** Each side a command for outer gaps names is set, every other one is left
    * alone, and so are the inner gaps. */
  lemma CommandSets(s: State, w: nat, kind: Kind, scope: Scope, mode: Mode, pixels: int, side: Side)
    requires w < |s.workspaces| && mode != UnknownMode && kind != InnerGaps && kind != UnknownKind
    ensures var (ok, t) := Command(s, w, kind, scope, mode, pixels);
            ok && if Names(kind, side) then SideSet(s, t, w, side, scope, mode, pixels) else SideKept(s, t, side)
  {
    CommandUpdates(s, w, kind, scope, mode, pixels);
    SidesNamed(kind, side);
    SidesNamed(kind, Inner);
    UpdatesSet(s, w, Sides(kind), scope, mode, pixels);
  }

  /** Limited anew, by the new inner gap. */
  ghost predicate Relimited(s: State, t: State, side: Side) {
    && |t.workspaces| == |s.workspaces| && t.config.Get(side) == Max(s.config.Get(side), -t.config.inner)
    && forall i :: 0 <= i < |s.workspaces| ==>
         t.workspaces[i].Get(side) == Max(s.workspaces[i].Get(side), -t.config.Get(side) - t.config.inner)
  }

  lemma KeptRelimited(s: State, t: State, u: State, w: nat, side: Side)
    requires w < |s.workspaces| && side != Inner && SideKept(s, t, side) && SideKept(t, u, Inner)
    requires SetForAll(t, u, side, Plus, 0)
    ensures Relimited(s, u, side)
  {
    assert u.config.inner == u.config.Get(Inner) && t.config.inner == t.config.Get(Inner);
  }

  /** A command for inner gaps sets those, and limits each outer side anew. */
  lemma CommandSetsInner(s: State, w: nat, scope: Scope, mode: Mode, pixels: int, side: Side)
    requires w < |s.workspaces| && mode != UnknownMode
    ensures var (ok, t) := Command(s, w, InnerGaps, scope, mode, pixels);
            ok && if side == Inner then SideSet(s, t, w, Inner, scope, mode, pixels) else Relimited(s, t, side)
  {
    var t := Update(s, w, Inner, scope, mode, pixels).1;
    UpdateSets(s, w, Inner, scope, mode, pixels);
    UpdatesSet(t, w, [Top, Bottom, Right, Left], All, Plus, 0);
    var u := Updates(t, w, [Top, Bottom, Right, Left], All, Plus, 0).1;
    assert SideKept(t, u, Inner);
    if side == Inner {
      SetStays(s, t, u, w, Inner, scope, mode, pixels);
    } else {
      assert side in [Top, Bottom, Right, Left];
      KeptRelimited(s, t, u, w, side);
    }
  }

  /** A word the command does not know changes nothing. */
  lemma CommandRefuses(s: State, w: nat, kind: Kind, scope: Scope, mode: Mode, pixels: int)
    requires w < |s.workspaces| && (mode == UnknownMode || kind == UnknownKind)
    ensures Command(s, w, kind, scope, mode, pixels) == (false, s)
  {
  }
}
