/** Each step of the animation clock keeps every animation's story straight. */
module AnimationSteps {
  import opened AnimationClock

  // ---------------------------------------------------------------- the elementary changes

  lemma AliveAt(slots: seq<Slot>, i: nat)
    requires i < |slots| && slots[i].active
    ensures Alive(slots, slots[i].id)
  {
  }

  /** Marking a slot inactive ends the life of its id and of no other. */
  lemma InactiveAlive(c: Clock, i: nat, id: int)
    requires i < |c.slots|
    requires DistinctIds(c.slots)
    ensures Alive(Inactive(c, i).slots, id) <==> Alive(c.slots, id) && id != c.slots[i].id
  {
    var after := Inactive(c, i).slots;
    if Alive(c.slots, id) && id != c.slots[i].id {
      var j :| 0 <= j < |c.slots| && c.slots[j].id == id && c.slots[j].active;
      assert after[j] == c.slots[j];
    }
    if Alive(after, id) {
      var j :| 0 <= j < |after| && after[j].id == id && after[j].active;
      assert c.slots[j] == after[j];
    }
  }

  lemma AddedAlive(slots: seq<Slot>, s: Slot, id: int)
    requires s.active
    ensures Alive(slots + [s], id) <==> Alive(slots, id) || id == s.id
  {
    var after := slots + [s];
    if Alive(slots, id) {
      var j :| 0 <= j < |slots| && slots[j].id == id && slots[j].active;
      assert after[j] == slots[j];
    }
    if id == s.id { assert after[|slots|] == s; }
    if Alive(after, id) {
      var j :| 0 <= j < |after| && after[j].id == id && after[j].active;
      if j < |slots| { assert slots[j] == after[j]; }
    }
  }

  lemma AddedKeeps(c: Clock, pending: set<int>, current: int, now: real, duration: real)
    requires Inv(c, pending, current) && duration > 0.0
    requires current < c.nextId
    ensures Inv(Added(c, now, duration), pending, current)
  {
    var after := Added(c, now, duration);
    forall id ensures Told(after, pending, current, id) {
      assert Told(c, pending, current, id);
      PhaseStep(c.log, Started(c.nextId), id);
      AddedAlive(c.slots, Slot(c.nextId, true, now, duration), id);
      if Alive(c.slots, id) { assert Known(c, id); }
    }
  }

  /** Cancelling a live animation. */
  lemma CancelledKeeps(c: Clock, pending: set<int>, current: int, i: nat)
    requires Inv(c, pending, current) && i < |c.slots| && c.slots[i].active
    ensures Inv(Noted(Inactive(c, i), Cancelled(c.slots[i].id)), pending, current)
  {
    var e := Cancelled(c.slots[i].id);
    var after := Noted(Inactive(c, i), e);
    forall id ensures Told(after, pending, current, id) {
      assert Told(c, pending, current, id);
      PhaseStep(c.log, e, id);
      InactiveAlive(c, i, id);
      AliveAt(c.slots, i);
    }
  }

  /** Finishing begins: the animation is off the table, its last step taken. */
  lemma FinishingKeeps(c: Clock, pending: set<int>, current: int, i: nat)
    requires Inv(c, pending, current) && i < |c.slots| && c.slots[i].active
    ensures c.slots[i].id !in pending
    ensures Inv(Noted(Inactive(c, i), Stepped(c.slots[i].id, 1.0, false)), pending + {c.slots[i].id}, current)
  {
    var e := Stepped(c.slots[i].id, 1.0, false);
    var after := Noted(Inactive(c, i), e);
    AliveAt(c.slots, i);
    assert Told(c, pending, current, c.slots[i].id);
    forall id ensures Told(after, pending + {c.slots[i].id}, current, id) {
      assert Told(c, pending, current, id);
      PhaseStep(c.log, e, id);
      InactiveAlive(c, i, id);
    }
  }

  /** Finishing ends. */
  lemma FinishedKeeps(c: Clock, pending: set<int>, current: int, id: int)
    requires Inv(c, pending + {id}, current) && id !in pending
    ensures Inv(Noted(c, Completed(id)), pending, current)
  {
    var after := Noted(c, Completed(id));
    forall k ensures Told(after, pending, current, k) {
      assert Told(c, pending + {id}, current, k);
      PhaseStep(c.log, Completed(id), k);
    }
  }

  /** A step of the walk: at its end the animation becomes the current one. */
  lemma SteppedKeeps(c: Clock, i: nat, p: real)
    requires Inv(c, {}, 0) && i < |c.slots| && c.slots[i].active && 0.0 <= p <= 1.0
    ensures Inv(Noted(c, Stepped(c.slots[i].id, p, true)), {}, if p < 1.0 then 0 else c.slots[i].id)
  {
    var e := Stepped(c.slots[i].id, p, true);
    var current := if p < 1.0 then 0 else c.slots[i].id;
    AliveAt(c.slots, i);
    forall id ensures Told(Noted(c, e), {}, current, id) {
      assert Told(c, {}, 0, id);
      PhaseStep(c.log, e, id);
    }
  }

  /** The walk completes the current animation. */
  lemma CompletedKeeps(c: Clock, i: nat)
    requires i < |c.slots| && c.slots[i].active && Inv(c, {}, c.slots[i].id)
    ensures Inv(Noted(Inactive(c, i), Completed(c.slots[i].id)), {}, 0)
  {
    var e := Completed(c.slots[i].id);
    var after := Noted(Inactive(c, i), e);
    AliveAt(c.slots, i);
    forall id ensures Told(after, {}, 0, id) {
      assert Told(c, {}, c.slots[i].id, id);
      PhaseStep(c.log, e, id);
      InactiveAlive(c, i, id);
    }
  }

  /** An animation its own last step took off the table needs no completing. */
  lemma LeftKeeps(c: Clock, i: nat)
    requires i < |c.slots| && !c.slots[i].active && Inv(c, {}, c.slots[i].id)
    ensures Inv(c, {}, 0)
  {
    forall id ensures Told(c, {}, 0, id) {
      assert Told(c, {}, c.slots[i].id, id);
    }
  }

  // ---------------------------------------------------------------- compaction

  /** Compaction keeps exactly the active slots, in their order. */
  lemma {:induction false} CompactedSlots(slots: seq<Slot>)
    ensures forall s :: s in Actives(slots) <==> s in slots && s.active
  {
    if slots != [] {
      var k := |slots| - 1;
      CompactedSlots(slots[..k]);
      assert slots == slots[..k] + [slots[k]];
    }
  }

  lemma {:induction false} ActivesDistinct(slots: seq<Slot>)
    requires DistinctIds(slots)
    ensures DistinctIds(Actives(slots))
  {
    if slots != [] {
      var k := |slots| - 1;
      ActivesDistinct(slots[..k]);
      var r, all := Actives(slots[..k]), Actives(slots);
      CompactedSlots(slots[..k]);
      forall i, j | 0 <= i < j < |all| ensures all[i].id != all[j].id {
        if j < |r| {
          assert r[i].id != r[j].id;
        } else {
          assert r[i] in slots[..k] && all[j] == slots[k];
          var m :| 0 <= m < k && slots[..k][m] == r[i];
          assert slots[m].id != slots[k].id;
        }
      }
    }
  }

  lemma ActivesShape(c: Clock)
    requires DistinctIds(c.slots)
    requires forall i :: 0 <= i < |c.slots| ==> Known(c, c.slots[i].id) && c.slots[i].duration > 0.0
    ensures DistinctIds(Actives(c.slots))
    ensures var r := Actives(c.slots); forall i :: 0 <= i < |r| ==> Known(c, r[i].id) && r[i].duration > 0.0
  {
    CompactedSlots(c.slots);
    ActivesDistinct(c.slots);
    var r := Actives(c.slots);
    forall i | 0 <= i < |r| ensures Known(c, r[i].id) && r[i].duration > 0.0 {
      assert r[i] in c.slots;
    }
  }

  lemma AliveIn(slots: seq<Slot>, id: int)
    ensures Alive(Actives(slots), id) <==> Alive(slots, id)
  {
    CompactedSlots(slots);
    var r := Actives(slots);
    if Alive(r, id) {
      var i :| 0 <= i < |r| && r[i].id == id && r[i].active;
      assert r[i] in slots;
    }
    if Alive(slots, id) {
      var i :| 0 <= i < |slots| && slots[i].id == id && slots[i].active;
      assert slots[i] in r;
    }
  }

  lemma CompactedTold(c: Clock, pending: set<int>, current: int, id: int)
    requires Told(c, pending, current, id)
    ensures Told(StoppedIfIdle(Compacted(c)), pending, current, id)
  {
    AliveIn(c.slots, id);
  }

  lemma CompactedKeeps(c: Clock, pending: set<int>, current: int)
    requires Inv(c, pending, current)
    ensures Inv(StoppedIfIdle(Compacted(c)), pending, current)
  {
    ActivesShape(c);
    var after := StoppedIfIdle(Compacted(c));
    assert after.slots == (if c.inTick then c.slots else Actives(c.slots)) && after.nextId == c.nextId;
    forall id ensures Told(after, pending, current, id) {
      assert Told(c, pending, current, id);
      CompactedTold(c, pending, current, id);
    }
  }

  /** After compaction outside the walk the clock is at rest. */
  lemma CompactedIdle(c: Clock)
    requires Inv(c, {}, 0) && !c.inTick
    ensures Idle(StoppedIfIdle(Compacted(c)))
  {
    CompactedKeeps(c, {}, 0);
    var after := StoppedIfIdle(Compacted(c));
    assert after.slots == Actives(c.slots);
  }

  // ---------------------------------------------------------------- calls

  /** Whatever the callbacks ask for, a call keeps the stories straight. */
  lemma {:induction false} DoKeeps(c: Clock, a: Action, mode: Mode, pending: set<int>, current: int)
    requires Admits(c, mode) && Fits(mode, a) && Inv(c, pending, current) && current < c.nextId
    ensures Inv(Do(c, a, mode), pending, current)
    decreases a
  {
    match a
    case Start(now, duration, natural, atOnce) =>
      if Length(duration, natural) <= 0.0 {
        DoAllKeeps(c, atOnce.step, mode, pending, current);
        DoAllKeeps(DoAll(c, atOnce.step, mode), atOnce.done, mode, pending, current);
      } else {
        AddedKeeps(c, pending, current, now, Length(duration, natural));
      }
    case Cancel(id) =>
      var i := Find(c.slots, id);
      if i < |c.slots| {
        CancelledKeeps(c, pending, current, i);
        CompactedKeeps(Noted(Inactive(c, i), Cancelled(id)), pending, current);
      }
    case Finish(id, last) =>
      var i := Find(c.slots, id);
      if i < |c.slots| {
        FinishingKeeps(c, pending, current, i);
        var begun := Noted(Inactive(c, i), Stepped(id, 1.0, false));
        DoAllKeeps(begun, last.step, Under(mode), pending + {id}, current);
        var stepped := DoAll(begun, last.step, Under(mode));
        assert stepped.slots[i].id == id;
        FinishedKeeps(stepped, pending, current, id);
        DoAllKeeps(Noted(stepped, Completed(id)), last.done, mode, pending, current);
        CompactedKeeps(DoAll(Noted(stepped, Completed(id)), last.done, mode), pending, current);
      }
  }

  lemma {:induction false} DoAllKeeps(c: Clock, script: Script, mode: Mode, pending: set<int>, current: int)
    requires Admits(c, mode) && ScriptFits(mode, script) && Inv(c, pending, current) && current < c.nextId
    ensures Inv(DoAll(c, script, mode), pending, current)
    decreases script
  {
    match script
    case Nil =>
    case Then(a, rest) =>
      DoKeeps(c, a, mode, pending, current);
      DoAllKeeps(Do(c, a, mode), rest, mode, pending, current);
  }

  lemma FinishIdle(c: Clock, id: int, last: Reaction)
    requires Idle(c) && Fits(Free, Finish(id, last)) && Find(c.slots, id) < |c.slots|
    ensures Idle(Do(c, Finish(id, last), Free))
  {
    var i := Find(c.slots, id);
    FinishingKeeps(c, {}, 0, i);
    var begun := Noted(Inactive(c, i), Stepped(id, 1.0, false));
    DoAllKeeps(begun, last.step, Held, {} + {id}, 0);
    var stepped := DoAll(begun, last.step, Held);
    assert stepped.slots[i].id == id;
    FinishedKeeps(stepped, {}, 0, id);
    DoAllKeeps(Noted(stepped, Completed(id)), last.done, Free, {}, 0);
    CompactedIdle(DoAll(Noted(stepped, Completed(id)), last.done, Free));
  }

  /** A call made between ticks leaves the clock at rest. */
  lemma {:induction false} DoIdle(c: Clock, a: Action)
    requires Idle(c) && Fits(Free, a)
    ensures Idle(Do(c, a, Free))
    decreases a
  {
    match a
    case Start(now, duration, natural, atOnce) =>
      if Length(duration, natural) <= 0.0 {
        DoAllIdle(c, atOnce.step);
        DoAllIdle(DoAll(c, atOnce.step, Free), atOnce.done);
      } else {
        AddedKeeps(c, {}, 0, now, Length(duration, natural));
      }
    case Cancel(id) =>
      var i := Find(c.slots, id);
      if i < |c.slots| {
        CancelledKeeps(c, {}, 0, i);
        CompactedIdle(Noted(Inactive(c, i), Cancelled(id)));
      }
    case Finish(id, last) =>
      var i := Find(c.slots, id);
      if i < |c.slots| {
        FinishIdle(c, id, last);
      }
  }

  lemma {:induction false} DoAllIdle(c: Clock, script: Script)
    requires Idle(c) && ScriptFits(Free, script)
    ensures Idle(DoAll(c, script, Free))
    decreases script
  {
    match script
    case Nil =>
    case Then(a, rest) =>
      DoIdle(c, a);
      DoAllIdle(Do(c, a, Free), rest);
  }

  // ---------------------------------------------------------------- the walk

  lemma VisitKeeps(c: Clock, now: real, r: Reaction, i: nat)
    requires c.inTick && i < |c.slots| && Inv(c, {}, 0)
    ensures Inv(Visit(c, now, r, i), {}, 0)
  {
    var s := c.slots[i];
    if s.active {
      var p := Progress(s, now);
      var current := if p < 1.0 then 0 else s.id;
      SteppedKeeps(c, i, p);
      DoAllKeeps(Noted(c, Stepped(s.id, p, true)), r.step, Ticking, {}, current);
      var stepped := DoAll(Noted(c, Stepped(s.id, p, true)), r.step, Ticking);
      assert stepped.slots[i].id == s.id;
      if p >= 1.0 {
        if stepped.slots[i].active {
          CompletedKeeps(stepped, i);
          DoAllKeeps(Noted(Inactive(stepped, i), Completed(s.id)), r.done, Ticking, {}, 0);
        } else {
          LeftKeeps(stepped, i);
        }
      }
    }
  }

  lemma {:induction false} WalkKeeps(c: Clock, now: real, reactions: nat -> Reaction, i: nat, n: nat)
    requires c.inTick && i <= n <= |c.slots| && Inv(c, {}, 0)
    ensures Inv(Walk(c, now, reactions, i, n), {}, 0)
    decreases n - i
  {
    if i < n {
      VisitKeeps(c, now, reactions(i), i);
      WalkKeeps(Visit(c, now, reactions(i), i), now, reactions, i + 1, n);
    }
  }

  lemma InTickKeeps(c: Clock, inTick: bool)
    requires Inv(c, {}, 0)
    ensures Inv(c.(inTick := inTick), {}, 0)
  {
    forall id ensures Told(c.(inTick := inTick), {}, 0, id) {
      assert Told(c, {}, 0, id);
    }
  }

  /** A tick leaves the clock at rest, whatever its callbacks ask for. */
  lemma TickIdle(c: Clock, now: real, reactions: nat -> Reaction)
    requires Idle(c)
    ensures Idle(Tick(c, now, reactions))
  {
    InTickKeeps(c, true);
    WalkKeeps(c.(inTick := true), now, reactions, 0, |c.slots|);
    InTickKeeps(Walk(c.(inTick := true), now, reactions, 0, |c.slots|), false);
    CompactedIdle(Walk(c.(inTick := true), now, reactions, 0, |c.slots|).(inTick := false));
  }
}
