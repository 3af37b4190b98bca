/** The clock as the compositor holds it: a slot table its calls update in
  * place.  A callback is run by performing the calls of its script. */
module ClockOps {
  import opened AnimationClock

  class SlotTable {
    var slots: seq<Slot>
    var nextId: int
    var timerRunning: bool
    var inTick: bool
    ghost var log: seq<Event>

    ghost function View(): Clock
      reads this
    {
      Clock(slots, nextId, timerRunning, inTick, log)
    }

    constructor ()
      ensures View() == INITIAL
    {
      slots, nextId, timerRunning, inTick, log := [], 1, false, false, [];
    }

    /** slot_by_id, with the length of the table for no slot. */
    method SlotById(id: int) returns (i: nat)
      ensures i == Find(slots, id)
    {
      if id <= 0 {
        return |slots|;
      }
      i := 0;
      while i < |slots|
        invariant i <= |slots| && FindFrom(slots, id, 0) == FindFrom(slots, id, i)
      {
        if slots[i].id == id && slots[i].active {
          return;
        }
        i := i + 1;
      }
    }

    /** anim_compact: the active slots slide down over the others. */
    method Compact()
      modifies this
      ensures View() == Compacted(old(View()))
    {
      if inTick {
        return;
      }
      ghost var before := slots;
      var w, i, count := 0, 0, |slots|;
      while i < count
        invariant 0 <= w <= i <= count == |slots| == |before|
        invariant slots[..w] == Actives(before[..i]) && slots[i..] == before[i..]
        invariant View() == old(View()).(slots := slots)
      {
        assert before[..i + 1][..i] == before[..i];
        assert slots[i] == slots[i..][0] == before[i];
        if slots[i].active {
          slots := slots[w := slots[i]];
          w := w + 1;
        }
        i := i + 1;
      }
      slots := slots[..w];
      assert before[..i] == before;
    }

    method StopTimerIfIdle()
      modifies this
      ensures View() == StoppedIfIdle(old(View()))
    {
      if |slots| > 0 || !timerRunning {
        return;
      }
      timerRunning := false;
    }

    /** aiwr_anim_start: without a duration the end state is reached at once and
      * there is no animation to name. */
    method Start(now: real, duration: real, natural: real, atOnce: Reaction, ghost mode: Mode) returns (id: int)
      requires Admits(View(), mode) && Fits(mode, Action.Start(now, duration, natural, atOnce))
      modifies this
      ensures View() == Do(old(View()), Action.Start(now, duration, natural, atOnce), mode)
      ensures id == if Length(duration, natural) <= 0.0 then 0 else old(nextId)
      decreases Action.Start(now, duration, natural, atOnce)
    {
      var length := if natural > 0.0 then natural else duration;
      if length <= 0.0 {
        Perform(atOnce.step, mode);
        Perform(atOnce.done, mode);
        return 0;
      }
      id := nextId;
      slots := slots + [Slot(nextId, true, now, length)];
      nextId := nextId + 1;
      log := log + [Started(id)];
      timerRunning := true;
    }

    /** aiwr_anim_cancel. */
    method Cancel(id: int, ghost mode: Mode)
      requires Admits(View(), mode) && Fits(mode, Action.Cancel(id))
      modifies this
      ensures View() == Do(old(View()), Action.Cancel(id), mode)
      decreases Action.Cancel(id)
    {
      var i := SlotById(id);
      if i == |slots| {
        return;
      }
      slots := slots[i := slots[i].(active := false)];
      log := log + [Cancelled(id)];
      Compact();
      StopTimerIfIdle();
    }

    /** aiwr_anim_finish: a last step at progress 1, then completion. */
    method Finish(id: int, last: Reaction, ghost mode: Mode)
      requires Admits(View(), mode) && Fits(mode, Action.Finish(id, last))
      modifies this
      ensures View() == Do(old(View()), Action.Finish(id, last), mode)
      decreases Action.Finish(id, last)
    {
      var i := SlotById(id);
      if i == |slots| {
        return;
      }
      slots := slots[i := slots[i].(active := false)];
      log := log + [Stepped(id, 1.0, false)];
      Perform(last.step, Under(mode));
      log := log + [Completed(slots[i].id)];
      Perform(last.done, mode);
      Compact();
      StopTimerIfIdle();
    }

    /** A callback at work. */
    method Perform(script: Script, ghost mode: Mode)
      requires Admits(View(), mode) && ScriptFits(mode, script)
      modifies this
      ensures View() == DoAll(old(View()), script, mode)
      decreases script
    {
      match script {
        case Nil =>
        case Then(first, rest) =>
          match first {
            case Start(now, duration, natural, atOnce) =>
              var _ := Start(now, duration, natural, atOnce, mode);
            case Cancel(id) =>
              Cancel(id, mode);
            case Finish(id, last) =>
              Finish(id, last, mode);
          }
          Perform(rest, mode);
      }
    }

    /** The share of its duration an animation has run, within [0, 1]. */
    method ProgressOf(s: Slot, now: real) returns (p: real)
      ensures p == Progress(s, now)
    {
      p := if s.duration <= 0.0 then 1.0 else (now - s.start) / s.duration;
      if p < 0.0 {
        p := 0.0;
      }
      if p >= 1.0 {
        p := 1.0;
      }
    }

    /** One slot of the walk: the table is read afresh after each callback. */
    method TickSlot(i: nat, now: real, reaction: Reaction)
      requires inTick && i < |slots|
      modifies this
      ensures View() == Visit(old(View()), now, reaction, i)
    {
      if !slots[i].active {
        return;
      }
      var p := ProgressOf(slots[i], now);
      log := log + [Stepped(slots[i].id, p, true)];
      Perform(reaction.step, Ticking);
      if p < 1.0 || !slots[i].active {
        return;
      }
      slots := slots[i := slots[i].(active := false)];
      log := log + [Completed(slots[i].id)];
      Perform(reaction.done, Ticking);
    }

    /** anim_tick: the slots present when the tick began, in order. */
    method Tick(now: real, reactions: nat -> Reaction)
      requires !inTick
      modifies this
      ensures View() == AnimationClock.Tick(old(View()), now, reactions)
    {
      inTick := true;
      var n := |slots|;
      ghost var begun := View();
      var i := 0;
      while i < n
        invariant i <= n <= |slots| && inTick
        invariant Walk(View(), now, reactions, i, n) == Walk(begun, now, reactions, 0, n)
      {
        TickSlot(i, now, reactions(i));
        i := i + 1;
      }
      inTick := false;
      Compact();
      StopTimerIfIdle();
    }
  }
}
