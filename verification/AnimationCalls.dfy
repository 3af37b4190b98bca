/** What each call of the clock does to the animation it names, and to the
  * others. */
module AnimationCalls {
  import opened AnimationClock
  import opened AnimationSteps

  // ---------------------------------------------------------------- who is alive

  lemma FoundAlive(c: Clock, pending: set<int>, current: int, id: int)
    requires Inv(c, pending, current)
    ensures Find(c.slots, id) < |c.slots| <==> Alive(c.slots, id)
  {
    if Alive(c.slots, id) {
      var i :| 0 <= i < |c.slots| && c.slots[i].id == id && c.slots[i].active;
      assert Known(c, c.slots[i].id);
    }
  }

  lemma SettledAlive(c: Clock, id: int)
    ensures Alive(StoppedIfIdle(Compacted(c)).slots, id) <==> Alive(c.slots, id)
  {
    AliveIn(c.slots, id);
  }

  lemma SettledSlot(c: Clock, s: Slot)
    requires s.active
    ensures s in StoppedIfIdle(Compacted(c)).slots <==> s in c.slots
  {
    CompactedSlots(c.slots);
  }

  lemma InactiveOthers(c: Clock, i: nat, s: Slot)
    requires i < |c.slots| && DistinctIds(c.slots) && s.active && s.id != c.slots[i].id
    ensures s in Inactive(c, i).slots <==> s in c.slots
  {
    var after := Inactive(c, i).slots;
    if s in c.slots {
      var j :| 0 <= j < |c.slots| && c.slots[j] == s;
      assert after[j] == s;
    }
    if s in after {
      var j :| 0 <= j < |after| && after[j] == s;
      assert c.slots[j] == s;
    }
  }

  // ---------------------------------------------------------------- cancel

  /** Nobody is alive under the id any more, and everybody else is as before.  The
    * animation it ends hears of it; if there is none, nothing happens. */
  lemma CancelEnds(c: Clock, id: int, mode: Mode, pending: set<int>, current: int)
    requires Admits(c, mode) && Fits(mode, Cancel(id)) && Inv(c, pending, current)
    ensures var r := Do(c, Cancel(id), mode);
            && !Alive(r.slots, id)
            && (forall s: Slot :: s.active && s.id != id ==> (s in r.slots <==> s in c.slots))
            && (if Alive(c.slots, id) then r.log == c.log + [Cancelled(id)] && r.nextId == c.nextId else r == c)
  {
    var i := Find(c.slots, id);
    FoundAlive(c, pending, current, id);
    if i < |c.slots| {
      var off := Noted(Inactive(c, i), Cancelled(id));
      InactiveAlive(c, i, id);
      SettledAlive(off, id);
      forall s: Slot | s.active && s.id != id ensures s in StoppedIfIdle(Compacted(off)).slots <==> s in c.slots {
        InactiveOthers(c, i, s);
        SettledSlot(off, s);
      }
    }
  }

  // ---------------------------------------------------------------- finish

  /** Nothing follows completion but what should not be. */
  lemma {:induction false} DoneStays(log: seq<Event>, id: int, k: nat)
    requires k <= |log| && PhaseOf(log[..k], id) == Done
    ensures PhaseOf(log, id) == Done || PhaseOf(log, id) == Bad
    decreases |log|
  {
    if k < |log| {
      assert log[..|log| - 1][..k] == log[..k];
      DoneStays(log[..|log| - 1], id, k);
    } else {
      assert log[..k] == log;
    }
  }

  lemma DoneIsOver(c: Clock, pending: set<int>, current: int, id: int, k: nat)
    requires Inv(c, pending, current) && k <= |c.log| && PhaseOf(c.log[..k], id) == Done
    ensures !Alive(c.slots, id)
  {
    DoneStays(c.log, id, k);
    assert Told(c, pending, current, id);
  }

  lemma PhaseAtEnd(c: Clock, pending: set<int>, current: int, id: int)
    requires Inv(c, pending, current) && id in pending
    ensures PhaseOf(c.log, id) == AtEnd && PhaseOf(c.log + [Completed(id)], id) == Done
  {
    assert Told(c, pending, current, id);
    PhaseStep(c.log, Completed(id), id);
  }

  /** The log on the way through a finish. */
  lemma FinishLogs(c: Clock, id: int, last: Reaction, mode: Mode, pending: set<int>, current: int)
    returns (stepped: Clock)
    requires Admits(c, mode) && Fits(mode, Finish(id, last)) && Inv(c, pending, current) && current < c.nextId
    requires Alive(c.slots, id)
    ensures Inv(stepped, pending + {id}, current) && c.log + [Stepped(id, 1.0, false)] <= stepped.log
    ensures stepped.log + [Completed(id)] <= Do(c, Finish(id, last), mode).log
  {
    var i := Find(c.slots, id);
    FoundAlive(c, pending, current, id);
    FinishingKeeps(c, pending, current, i);
    var begun := Noted(Inactive(c, i), Stepped(id, 1.0, false));
    DoAllKeeps(begun, last.step, Under(mode), pending + {id}, current);
    stepped := DoAll(begun, last.step, Under(mode));
    assert stepped.slots[i].id == id;
  }

  lemma FinishHeard(before: seq<Event>, between: seq<Event>, after: seq<Event>, id: int)
    requires before + [Stepped(id, 1.0, false)] <= between && between + [Completed(id)] <= after
    ensures |before| < |after| && after[..|before|] == before && after[|before|] == Stepped(id, 1.0, false)
    ensures Completed(id) in after[|before| + 1..]
    ensures |between| < |after| && after[..|between| + 1] == between + [Completed(id)]
  {
    assert after[|before| + 1..][|between| - |before| - 1] == Completed(id);
  }

  /** `r` has heard of the last step and of completion. */
  ghost predicate Finished(before: seq<Event>, r: Clock, id: int) {
    && !Alive(r.slots, id)
    && |before| < |r.log| && r.log[..|before|] == before && r.log[|before|] == Stepped(id, 1.0, false)
    && Completed(id) in r.log[|before| + 1..]
  }

  lemma FinishOver(before: seq<Event>, stepped: Clock, r: Clock, id: int, pending: set<int>, current: int)
    requires Inv(stepped, pending + {id}, current) && Inv(r, pending, current)
    requires before + [Stepped(id, 1.0, false)] <= stepped.log && stepped.log + [Completed(id)] <= r.log
    ensures Finished(before, r, id)
  {
    FinishHeard(before, stepped.log, r.log, id);
    PhaseAtEnd(stepped, pending + {id}, current, id);
    DoneIsOver(r, pending, current, id, |stepped.log| + 1);
  }

  /** A live animation takes its last step at once and is completed, and is not
    * alive any more, whatever its callbacks ask for. */
  lemma FinishEnds(c: Clock, id: int, last: Reaction, mode: Mode, pending: set<int>, current: int)
    requires Admits(c, mode) && Fits(mode, Finish(id, last)) && Inv(c, pending, current) && current < c.nextId
    requires Alive(c.slots, id)
    ensures Finished(c.log, Do(c, Finish(id, last), mode), id)
  {
    var stepped := FinishLogs(c, id, last, mode, pending, current);
    DoKeeps(c, Finish(id, last), mode, pending, current);
    FinishOver(c.log, stepped, Do(c, Finish(id, last), mode), id, pending, current);
  }

  /** If there is none of that id, nothing happens. */
  lemma FinishNothing(c: Clock, id: int, last: Reaction, mode: Mode, pending: set<int>, current: int)
    requires Admits(c, mode) && Fits(mode, Finish(id, last)) && Inv(c, pending, current) && !Alive(c.slots, id)
    ensures Do(c, Finish(id, last), mode) == c
  {
    FoundAlive(c, pending, current, id);
  }

  // ---------------------------------------------------------------- start

  /** With a length to run, a new animation is alive from `now` on for that long,
    * its curve's natural length before the one asked for. */
  lemma StartBegins(c: Clock, now: real, duration: real, natural: real, atOnce: Reaction, mode: Mode,
                    pending: set<int>, current: int)
    requires Admits(c, mode) && Fits(mode, Start(now, duration, natural, atOnce)) && Inv(c, pending, current)
    requires duration > 0.0 || natural > 0.0
    ensures var r := Do(c, Start(now, duration, natural, atOnce), mode);
            && !Alive(c.slots, c.nextId) && Alive(r.slots, c.nextId) && r.timer
            && (forall s: Slot :: s in r.slots <==>
                  s in c.slots || s == Slot(c.nextId, true, now, if natural > 0.0 then natural else duration))
            && r.log == c.log + [Started(c.nextId)]
  {
    assert !Known(c, c.nextId);
    AddedAlive(c.slots, Slot(c.nextId, true, now, if natural > 0.0 then natural else duration), c.nextId);
  }

  /** One script after the other. */
  function Joined(script: Script, more: Script): Script {
    match script
    case Nil => more
    case Then(a, rest) => Then(a, Joined(rest, more))
  }

  lemma {:induction false} JoinedDoes(c: Clock, script: Script, more: Script, mode: Mode)
    requires Admits(c, mode) && ScriptFits(mode, script) && ScriptFits(mode, more)
    ensures ScriptFits(mode, Joined(script, more))
    ensures DoAll(c, Joined(script, more), mode) == DoAll(DoAll(c, script, mode), more, mode)
    decreases script
  {
    match script
    case Nil =>
    case Then(a, rest) => JoinedDoes(Do(c, a, mode), rest, more, mode);
  }

  /** Without a length the step callback and then the completion callback run at
    * once, and nothing else happens. */
  lemma StartAtOnce(c: Clock, now: real, duration: real, natural: real, atOnce: Reaction, mode: Mode)
    requires Admits(c, mode) && Fits(mode, Start(now, duration, natural, atOnce))
    requires duration <= 0.0 && natural <= 0.0
    ensures ScriptFits(mode, Joined(atOnce.step, atOnce.done))
    ensures Do(c, Start(now, duration, natural, atOnce), mode) == DoAll(c, Joined(atOnce.step, atOnce.done), mode)
  {
    JoinedDoes(c, atOnce.step, atOnce.done, mode);
  }

  // ---------------------------------------------------------------- a tick

  /** Between start and end progress is the share of the time run; 0 before. */
  lemma ProgressShare(s: Slot, now: real)
    requires s.duration > 0.0
    ensures s.start <= now <= s.start + s.duration ==> Progress(s, now) * s.duration == now - s.start
    ensures now <= s.start ==> Progress(s, now) == 0.0
    ensures s.start + s.duration <= now ==> Progress(s, now) == 1.0
  {
    var share := (now - s.start) / s.duration;
    assert share * s.duration == now - s.start;
  }

  /** At the end of its time an animation that is not cancelled by its own step is
    * completed, and what its completion callback starts is alive from then on. */
  lemma CompletionCalls(c: Clock, now: real, r: Reaction, i: nat, length: real)
    requires c.inTick && i < |c.slots| && Inv(c, {}, 0) && c.slots[i].active && length > 0.0
    requires c.slots[i].start + c.slots[i].duration <= now
    requires r.step == Nil && r.done.Then? && r.done.first.Start? && r.done.rest == Nil
    requires r.done.first.duration == length && r.done.first.natural == 0.0
    ensures var after, id := Visit(c, now, r, i), c.slots[i].id;
            && !Alive(after.slots, id) && Alive(after.slots, c.nextId)
            && after.log == c.log + [Stepped(id, 1.0, true), Completed(id), Started(c.nextId)]
  {
    var id := c.slots[i].id;
    ProgressShare(c.slots[i], now);
    SteppedKeeps(c, i, 1.0);
    var stepped := Noted(c, Stepped(id, 1.0, true));
    assert DoAll(stepped, Nil, Ticking) == stepped;
    CompletedKeeps(stepped, i);
    var done := Noted(Inactive(stepped, i), Completed(id));
    InactiveAlive(stepped, i, id);
    assert Known(c, id);
    AddedAlive(done.slots, Slot(done.nextId, true, r.done.first.now, length), id);
    AddedAlive(done.slots, Slot(done.nextId, true, r.done.first.now, length), c.nextId);
    assert DoAll(done, r.done, Ticking) == DoAll(Do(done, r.done.first, Ticking), Nil, Ticking);
  }

  /** An animation may cancel itself in its step, and then is not completed. */
  lemma CancelledInStep(c: Clock, now: real, r: Reaction, i: nat)
    requires c.inTick && i < |c.slots| && Inv(c, {}, 0) && c.slots[i].active
    requires r.step == Then(Cancel(c.slots[i].id), Nil)
    ensures var after, id := Visit(c, now, r, i), c.slots[i].id;
            !Alive(after.slots, id) &&
              after.log == c.log + [Stepped(id, Progress(c.slots[i], now), true), Cancelled(id)]
  {
    var id, p := c.slots[i].id, Progress(c.slots[i], now);
    SteppedKeeps(c, i, p);
    var stepped := Noted(c, Stepped(id, p, true));
    AliveAt(stepped.slots, i);
    CancelEnds(stepped, id, Ticking, {}, if p < 1.0 then 0 else id);
    var after := Do(stepped, Cancel(id), Ticking);
    assert DoAll(stepped, r.step, Ticking) == DoAll(after, Nil, Ticking) == after;
    if after.slots[i].active { AliveAt(after.slots, i); }
  }
}
