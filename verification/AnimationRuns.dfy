/** What holds over every run of the animation clock. */
module AnimationRuns {
  import opened AnimationClock
  import opened AnimationSteps

  // ---------------------------------------------------------------- reading a log

  ghost predicate Straight(log: seq<Event>) {
    forall id :: PhaseOf(log, id) != Bad
  }

  predicate Over(e: Event) {
    e.Completed? || e.Cancelled?
  }

  predicate Silent(log: seq<Event>, id: int, from: nat) {
    forall k {:trigger log[k]} :: from <= k < |log| ==> log[k].id != id
  }

  lemma {:induction false} PrefixPhase(log: seq<Event>, id: int, k: nat)
    requires k <= |log| && PhaseOf(log, id) != Bad
    ensures PhaseOf(log[..k], id) != Bad
    decreases |log|
  {
    if k == |log| {
      assert log[..k] == log;
    } else {
      var n := |log| - 1;
      PrefixPhase(log[..n], id, k);
      assert log[..n][..k] == log[..k];
    }
  }

  /** Once over, always over. */
  lemma {:induction false} OverSilent(log: seq<Event>, id: int, i: nat)
    requires i < |log| && log[i].id == id && Over(log[i]) && PhaseOf(log, id) != Bad
    ensures Silent(log, id, i + 1)
    ensures PhaseOf(log, id) == (if log[i].Completed? then Done else Gone)
    decreases |log|
  {
    var n := |log| - 1;
    if i < n {
      PrefixPhase(log, id, n);
      OverSilent(log[..n], id, i);
      forall k | i < k < |log| ensures log[k].id != id {
        if k < n { assert log[..n][k] == log[k]; }
      }
    }
  }

  predicate FullStep(e: Event, id: int) {
    e.Stepped? && e.id == id && e.progress == 1.0
  }

  /** A story at its end has just had a step of progress exactly 1. */
  lemma {:induction false} AtEndStepped(log: seq<Event>, id: int)
    requires PhaseOf(log, id) == AtEnd
    ensures exists i :: 0 <= i < |log| && FullStep(log[i], id) && Silent(log, id, i + 1)
    decreases |log|
  {
    var n := |log| - 1;
    if log[n].id == id {
      assert FullStep(log[n], id) && Silent(log, id, n + 1);
    } else {
      AtEndStepped(log[..n], id);
      var i :| 0 <= i < n && FullStep(log[..n][i], id) && Silent(log[..n], id, i + 1);
      forall k | i < k < |log| ensures log[k].id != id {
        if k < n { assert log[..n][k] == log[k]; }
      }
      assert FullStep(log[i], id) && Silent(log, id, i + 1);
    }
  }

  /** Completion comes right after a full step of the same animation. */
  predicate Finale(log: seq<Event>, i: nat, j: nat) {
    i < j < |log| && FullStep(log[i], log[j].id) && Silent(log[..j], log[j].id, i + 1)
  }

  lemma {:induction false} CompletedAfterFullStep(log: seq<Event>, j: nat)
    requires j < |log| && log[j].Completed? && PhaseOf(log, log[j].id) != Bad
    ensures exists i :: Finale(log, i, j)
  {
    var id := log[j].id;
    PrefixPhase(log, id, j + 1);
    assert log[..j + 1][..j] == log[..j];
    AtEndStepped(log[..j], id);
    var i :| 0 <= i < j && FullStep(log[..j][i], id) && Silent(log[..j], id, i + 1);
    assert Finale(log, i, j);
  }

  /** A known ending has been announced. */
  lemma {:induction false} Announced(log: seq<Event>, id: int)
    requires PhaseOf(log, id) == Done || PhaseOf(log, id) == Gone
    ensures PhaseOf(log, id) == Done ==> Completed(id) in log
    ensures PhaseOf(log, id) == Gone ==> Cancelled(id) in log
    decreases |log|
  {
    var n := |log| - 1;
    if log[n].id != id {
      Announced(log[..n], id);
    }
  }

  lemma {:induction false} StartedIn(log: seq<Event>, id: int)
    requires PhaseOf(log, id) != Fresh && PhaseOf(log, id) != Bad
    ensures Started(id) in log
    decreases |log|
  {
    var n := |log| - 1;
    if !(log[n].id == id && log[n].Started?) {
      PrefixPhase(log, id, n);
      StartedIn(log[..n], id);
    }
  }

  /** Before its start nothing is heard of an animation. */
  lemma {:induction false} FirstStarted(log: seq<Event>, j: nat)
    requires j < |log| && PhaseOf(log, log[j].id) != Bad && !log[j].Started?
    ensures Started(log[j].id) in log[..j]
  {
    var id := log[j].id;
    PrefixPhase(log, id, j + 1);
    assert log[..j + 1][..j] == log[..j];
    if PhaseOf(log[..j], id) == Fresh { assert false; }
    StartedIn(log[..j], id);
  }

  lemma {:induction false} StepInRange(log: seq<Event>, j: nat)
    requires j < |log| && log[j].Stepped? && PhaseOf(log, log[j].id) != Bad
    ensures 0.0 <= log[j].progress <= 1.0
  {
    PrefixPhase(log, log[j].id, j + 1);
    assert log[..j + 1][..j] == log[..j];
  }

  // ---------------------------------------------------------------- every run

  datatype Call = Api(action: Action) | Timer(now: real, reactions: nat -> Reaction)

  ghost predicate Possible(calls: seq<Call>) {
    forall i :: 0 <= i < |calls| && calls[i].Api? ==> Fits(Free, calls[i].action)
  }

  ghost function Run(calls: seq<Call>): Clock
    requires Possible(calls)
  {
    if calls == [] then INITIAL
    else
      var k := |calls| - 1;
      var before := Run(calls[..k]);
      match calls[k]
      case Api(a) => if before.inTick then before else Do(before, a, Free)
      case Timer(now, reactions) => if before.inTick then before else Tick(before, now, reactions)
  }

  lemma InitialIdle()
    ensures Idle(INITIAL)
  {
    forall id ensures Told(INITIAL, {}, 0, id) {
      assert !Alive(INITIAL.slots, id);
    }
  }

  /** Between calls every stored slot is active, ids are distinct, and the timer
    * runs exactly when something is stored. */
  lemma {:induction false} RunsRest(calls: seq<Call>)
    requires Possible(calls)
    ensures Idle(Run(calls))
  {
    if calls == [] {
      InitialIdle();
    } else {
      var k := |calls| - 1;
      RunsRest(calls[..k]);
      match calls[k] {
        case Api(a) => DoIdle(Run(calls[..k]), a);
        case Timer(now, reactions) => TickIdle(Run(calls[..k]), now, reactions);
      }
    }
  }

  /** No call of a run is left out: each works on what the ones before it left. */
  lemma RunSteps(calls: seq<Call>, call: Call)
    requires Possible(calls + [call])
    ensures Possible(calls) && Run([]) == INITIAL
    ensures !Run(calls).inTick
    ensures call.Api? ==> Run(calls + [call]) == Do(Run(calls), call.action, Free)
    ensures call.Timer? ==> Run(calls + [call]) == Tick(Run(calls), call.now, call.reactions)
  {
    assert (calls + [call])[..|calls|] == calls && (calls + [call])[|calls|] == call;
    forall i | 0 <= i < |calls| && calls[i].Api? ensures Fits(Free, calls[i].action) {
      assert calls[i] == (calls + [call])[i];
    }
    RunsRest(calls);
  }

  lemma RunsStraight(calls: seq<Call>)
    requires Possible(calls)
    ensures Straight(Run(calls).log)
  {
    RunsRest(calls);
    var c := Run(calls);
    forall id ensures PhaseOf(c.log, id) != Bad {
      assert Told(c, {}, 0, id);
    }
  }

  /** In every run: nothing is heard of an animation after it completed or was
    * cancelled, so it completes at most once; it completes right after a step
    * with progress exactly 1; steps stay within [0, 1] and follow the start. */
  lemma RunsTellStories(calls: seq<Call>)
    requires Possible(calls)
    ensures var log := Run(calls).log;
            && (forall i, j :: 0 <= i < j < |log| && Over(log[i]) ==> log[j].id != log[i].id)
            && (forall j :: 0 <= j < |log| && log[j].Completed? ==> exists i :: Finale(log, i, j))
            && (forall j :: 0 <= j < |log| && log[j].Stepped? ==> 0.0 <= log[j].progress <= 1.0)
            && (forall j :: 0 <= j < |log| && !log[j].Started? ==> Started(log[j].id) in log[..j])
  {
    RunsStraight(calls);
    var log := Run(calls).log;
    forall i, j | 0 <= i < j < |log| && Over(log[i]) ensures log[j].id != log[i].id {
      OverSilent(log, log[i].id, i);
    }
    forall j | 0 <= j < |log| && log[j].Completed? ensures exists i :: Finale(log, i, j) {
      CompletedAfterFullStep(log, j);
    }
    forall j | 0 <= j < |log| && log[j].Stepped? ensures 0.0 <= log[j].progress <= 1.0 {
      StepInRange(log, j);
    }
    forall j | 0 <= j < |log| && !log[j].Started? ensures Started(log[j].id) in log[..j] {
      FirstStarted(log, j);
    }
  }

  /** In every run, each animation ever started is exactly one of: still alive,
    * completed, cancelled. */
  lemma RunsAccountForAll(calls: seq<Call>, id: int)
    requires Possible(calls) && 0 < id < Run(calls).nextId
    ensures var c := Run(calls);
            var alive, completed, cancelled := Alive(c.slots, id), Completed(id) in c.log, Cancelled(id) in c.log;
            && (alive || completed || cancelled)
            && !(alive && completed) && !(alive && cancelled) && !(completed && cancelled)
  {
    RunsRest(calls);
    var c := Run(calls);
    assert Told(c, {}, 0, id);
    if Completed(id) in c.log {
      var i :| 0 <= i < |c.log| && c.log[i] == Completed(id);
      OverSilent(c.log, id, i);
    }
    if Cancelled(id) in c.log {
      var i :| 0 <= i < |c.log| && c.log[i] == Cancelled(id);
      OverSilent(c.log, id, i);
    }
    if !Alive(c.slots, id) { Announced(c.log, id); }
  }

  // ---------------------------------------------------------------- one tick

  predicate ByTick(e: Event) {
    e.Stepped? && e.ticked
  }

  /** No step of the walk among the events from `from` on. */
  ghost predicate Quiet(log: seq<Event>, from: nat) {
    forall k {:trigger log[k]} :: from <= k < |log| ==> !ByTick(log[k])
  }

  lemma QuietStep(c: Clock, log: seq<Event>, e: Event)
    requires log == c.log + [e] && !ByTick(e)
    ensures Quiet(log, |c.log|)
  {
  }

  lemma QuietJoin(first: seq<Event>, all: seq<Event>, from: nat)
    requires first <= all && Quiet(first, from) && Quiet(all, |first|)
    ensures Quiet(all, from)
  {
    forall k {:trigger all[k]} | from <= k < |all| ensures !ByTick(all[k]) {
      if k < |first| { assert all[k] == first[k]; }
    }
  }

  lemma {:induction false} DoQuiet(c: Clock, a: Action, mode: Mode)
    requires Admits(c, mode) && Fits(mode, a)
    ensures Quiet(Do(c, a, mode).log, |c.log|)
    decreases a
  {
    match a
    case Start(now, duration, natural, atOnce) =>
      if Length(duration, natural) <= 0.0 {
        DoAllQuiet(c, atOnce.step, mode);
        DoAllQuiet(DoAll(c, atOnce.step, mode), atOnce.done, mode);
      }
    case Cancel(_) =>
    case Finish(id, last) =>
      var i := Find(c.slots, id);
      if i < |c.slots| {
        var begun := Noted(Inactive(c, i), Stepped(id, 1.0, false));
        DoAllQuiet(begun, last.step, Under(mode));
        var stepped := DoAll(begun, last.step, Under(mode));
        QuietStep(c, begun.log, Stepped(id, 1.0, false));
        QuietJoin(begun.log, stepped.log, |c.log|);
        var completed := Noted(stepped, Completed(stepped.slots[i].id));
        QuietJoin(stepped.log, completed.log, |c.log|);
        DoAllQuiet(completed, last.done, mode);
        QuietJoin(completed.log, DoAll(completed, last.done, mode).log, |c.log|);
      }
  }

  lemma {:induction false} DoAllQuiet(c: Clock, script: Script, mode: Mode)
    requires Admits(c, mode) && ScriptFits(mode, script)
    ensures Quiet(DoAll(c, script, mode).log, |c.log|)
    decreases script
  {
    match script
    case Nil =>
    case Then(a, rest) =>
      DoQuiet(c, a, mode);
      DoAllQuiet(Do(c, a, mode), rest, mode);
  }

  /** A visit steps its own slot and no other; a slot still active after it was
    * stepped, short of its end. */
  lemma VisitSteps(c: Clock, now: real, r: Reaction, i: nat)
    requires c.inTick && i < |c.slots|
    ensures var after := Visit(c, now, r, i);
            && Quiet(after.log, |c.log| + 1)
            && (|c.log| < |after.log| && ByTick(after.log[|c.log|]) ==>
                  c.slots[i].active && after.log[|c.log|] == Stepped(c.slots[i].id, Progress(c.slots[i], now), true))
            && (after.slots[i].active ==>
               |c.log| < |after.log| && ByTick(after.log[|c.log|]) && Progress(c.slots[i], now) < 1.0)
  {
    var s := c.slots[i];
    if s.active {
      var p := Progress(s, now);
      var begun := Noted(c, Stepped(s.id, p, true));
      DoAllQuiet(begun, r.step, Ticking);
      var stepped := DoAll(begun, r.step, Ticking);
      if p >= 1.0 && stepped.slots[i].active {
        DoAllQuiet(Noted(Inactive(stepped, i), Completed(s.id)), r.done, Ticking);
      }
    }
  }

  /** The event is the step the walk owes to slot j. */
  predicate StepOf(e: Event, slots: seq<Slot>, j: nat, now: real) {
    j < |slots| && e == Stepped(slots[j].id, Progress(slots[j], now), true)
  }

  ghost predicate StepsFrom(log: seq<Event>, from: nat, slots: seq<Slot>, i: nat, n: nat, now: real) {
    && (forall k :: from <= k < |log| && ByTick(log[k]) ==> exists j :: i <= j < n && StepOf(log[k], slots, j, now))
    && (forall k, l :: from <= k < l < |log| && ByTick(log[k]) && ByTick(log[l]) ==> log[k].id != log[l].id)
  }

  lemma WalkSplit(c: Clock, next: Clock, log: seq<Event>, i: nat, n: nat, now: real)
    requires i < n <= |c.slots| && DistinctIds(c.slots) && Extends(c.slots, next.slots)
    requires c.log <= next.log <= log && Quiet(next.log, |c.log| + 1)
    requires |c.log| < |next.log| && ByTick(next.log[|c.log|]) ==> StepOf(next.log[|c.log|], c.slots, i, now)
    requires StepsFrom(log, |next.log|, next.slots, i + 1, n, now)
    ensures StepsFrom(log, |c.log|, c.slots, i, n, now)
  {
    forall k | |c.log| <= k < |log| && ByTick(log[k])
      ensures exists j :: i <= j < n && StepOf(log[k], c.slots, j, now)
      ensures k < |next.log| ==> k == |c.log| && StepOf(log[k], c.slots, i, now)
      ensures k >= |next.log| ==> log[k].id != c.slots[i].id
    {
      if k < |next.log| {
        assert log[k] == next.log[k];
        assert StepOf(log[k], c.slots, i, now);
      } else {
        var j :| i + 1 <= j < n && StepOf(log[k], next.slots, j, now);
        assert StepOf(log[k], c.slots, j, now);
      }
    }
  }

  lemma {:induction false} WalkSteps(c: Clock, now: real, reactions: nat -> Reaction, i: nat, n: nat)
    requires c.inTick && i <= n <= |c.slots| && Inv(c, {}, 0)
    ensures StepsFrom(Walk(c, now, reactions, i, n).log, |c.log|, c.slots, i, n, now)
    decreases n - i
  {
    if i < n {
      var next := Visit(c, now, reactions(i), i);
      VisitKeeps(c, now, reactions(i), i);
      VisitSteps(c, now, reactions(i), i);
      WalkSteps(next, now, reactions, i + 1, n);
      WalkSplit(c, next, Walk(next, now, reactions, i + 1, n).log, i, n, now);
    }
  }

  predicate Reached(log: seq<Event>, from: nat, k: nat, slots: seq<Slot>, j: nat, now: real) {
    from <= k < |log| && StepOf(log[k], slots, j, now)
  }

  lemma {:induction false} WalkReaches(c: Clock, now: real, reactions: nat -> Reaction, i: nat, n: nat, j: nat)
    requires c.inTick && i <= j < n <= |c.slots|
    requires Walk(c, now, reactions, i, n).slots[j].active
    ensures Progress(c.slots[j], now) < 1.0
    ensures exists k :: Reached(Walk(c, now, reactions, i, n).log, |c.log|, k, c.slots, j, now)
    decreases n - i
  {
    var next := Visit(c, now, reactions(i), i);
    var after := Walk(next, now, reactions, i + 1, n);
    VisitSteps(c, now, reactions(i), i);
    if i < j {
      WalkReaches(next, now, reactions, i + 1, n, j);
      var k :| Reached(after.log, |next.log|, k, next.slots, j, now);
      assert Reached(after.log, |c.log|, k, c.slots, j, now);
    } else {
      assert next.slots[j].active;
      assert after.log[|c.log|] == next.log[|c.log|];
      assert Reached(after.log, |c.log|, |c.log|, c.slots, j, now);
    }
  }

  /** A tick steps each animation at most once, with the progress its start and
    * duration give, and none that was not stored when the tick began. */
  lemma TickSteps(c: Clock, now: real, reactions: nat -> Reaction)
    requires Idle(c)
    ensures StepsFrom(Tick(c, now, reactions).log, |c.log|, c.slots, 0, |c.slots|, now)
  {
    InTickKeeps(c, true);
    WalkSteps(c.(inTick := true), now, reactions, 0, |c.slots|);
  }

  /** An animation that survives a tick was stepped by it and had not run its
    * time; so the first tick at or after its end is its last. */
  lemma TickReaches(c: Clock, now: real, reactions: nat -> Reaction, j: nat)
    requires Idle(c) && j < |c.slots| && Alive(Tick(c, now, reactions).slots, c.slots[j].id)
    ensures now < c.slots[j].start + c.slots[j].duration
    ensures exists k :: Reached(Tick(c, now, reactions).log, |c.log|, k, c.slots, j, now)
  {
    var begun := c.(inTick := true);
    InTickKeeps(c, true);
    WalkKeeps(begun, now, reactions, 0, |c.slots|);
    var walked := Walk(begun, now, reactions, 0, |c.slots|);
    AliveIn(walked.slots, c.slots[j].id);
    var m :| 0 <= m < |walked.slots| && walked.slots[m].id == c.slots[j].id && walked.slots[m].active;
    assert walked.slots[j].id == c.slots[j].id;
    assert m == j;
    WalkReaches(begun, now, reactions, 0, |c.slots|, j);
  }
}
