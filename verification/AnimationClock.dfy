/** The one clock all animations share: a slot table walked by a timer, whose
  * callbacks may start, cancel and finish animations while it is being walked. */
module AnimationClock {

  datatype Slot = Slot(id: int, active: bool, start: real, duration: real)

  datatype Reaction = Reaction(step: Script, done: Script)

  /** What a caller, or a callback, asks of the clock.  The reactions say what
    * the callbacks that run within the call ask for in turn. */
  datatype Action =
    | Start(now: real, duration: real, natural: real, atOnce: Reaction)
    | Cancel(id: int)
    | Finish(id: int, last: Reaction)

  datatype Script = Nil | Then(first: Action, rest: Script)

  /** What becomes visible to the owners of the animations. */
  datatype Event =
    | Started(id: int)
    | Stepped(id: int, progress: real, ticked: bool)
    | Completed(id: int)
    | Cancelled(id: int)

  datatype Clock = Clock(slots: seq<Slot>, nextId: int, timer: bool, inTick: bool, log: seq<Event>)

  const INITIAL := Clock([], 1, false, false, [])

  // ---------------------------------------------------------------- pieces

  function FindFrom(slots: seq<Slot>, id: int, i: nat): (r: nat)
    requires i <= |slots|
    ensures i <= r <= |slots|
    ensures r < |slots| ==> slots[r].active && slots[r].id == id
    ensures forall j :: i <= j < r && slots[j].id == id ==> !slots[j].active
    decreases |slots| - i
  {
    if i == |slots| || (slots[i].id == id && slots[i].active) then i else FindFrom(slots, id, i + 1)
  }

  /** The first active slot of that id, or the length of the table. */
  function Find(slots: seq<Slot>, id: int): (i: nat)
    ensures i <= |slots|
    ensures i < |slots| ==> slots[i].active && slots[i].id == id && id > 0
    ensures i == |slots| ==> id <= 0 || forall j :: 0 <= j < |slots| && slots[j].id == id ==> !slots[j].active
  {
    if id <= 0 then |slots| else FindFrom(slots, id, 0)
  }

  function Actives(slots: seq<Slot>): (r: seq<Slot>)
    ensures |r| <= |slots|
    ensures forall j :: 0 <= j < |r| ==> r[j].active
  {
    if slots == [] then []
    else
      var k := |slots| - 1;
      Actives(slots[..k]) + (if slots[k].active then [slots[k]] else [])
  }

  function Compacted(c: Clock): Clock {
    if c.inTick then c else c.(slots := Actives(c.slots))
  }

  function StoppedIfIdle(c: Clock): Clock {
    if |c.slots| > 0 then c else c.(timer := false)
  }

  function Noted(c: Clock, e: Event): Clock {
    c.(log := c.log + [e])
  }

  function Inactive(c: Clock, i: nat): Clock
    requires i < |c.slots|
  {
    c.(slots := c.slots[i := c.slots[i].(active := false)])
  }

  function Added(c: Clock, now: real, duration: real): Clock {
    Noted(c, Started(c.nextId)).(
      slots := c.slots + [Slot(c.nextId, true, now, duration)],
      nextId := c.nextId + 1,
      timer := true)
  }

  function Length(duration: real, natural: real): real {
    if natural > 0.0 then natural else duration
  }

  // ---------------------------------------------------------------- the calls

  /** Where a call comes from: the timer's walk, anywhere else, or the step
    * callback of a finish outside the walk, whose slot must not be moved. */
  datatype Mode = Ticking | Free | Held

  function Under(mode: Mode): Mode {
    if mode == Ticking then Ticking else Held
  }

  /** The one restriction on callbacks: those of a held call only start animations. */
  predicate Fits(mode: Mode, a: Action)
    decreases a
  {
    mode == Ticking ||
    match a
    case Start(_, _, _, r) => ScriptFits(mode, r.step) && ScriptFits(mode, r.done)
    case Cancel(_) => mode == Free
    case Finish(_, r) => mode == Free && ScriptFits(Held, r.step) && ScriptFits(Free, r.done)
  }

  predicate ScriptFits(mode: Mode, script: Script)
    decreases script
  {
    mode == Ticking ||
    match script
    case Nil => true
    case Then(a, rest) => Fits(mode, a) && ScriptFits(mode, rest)
  }

  /** Slots keep their places and their animations, and none comes back to life. */
  predicate Extends(before: seq<Slot>, after: seq<Slot>) {
    |before| <= |after|
    && forall i {:trigger after[i]} :: 0 <= i < |before| ==>
         after[i].(active := before[i].active) == before[i] && (after[i].active ==> before[i].active)
  }

  /** The ids and the log only grow; outside Free mode no slot moves. */
  predicate Follows(before: Clock, after: Clock, mode: Mode) {
    && after.inTick == before.inTick
    && before.nextId <= after.nextId
    && before.log <= after.log
    && (mode != Free ==> Extends(before.slots, after.slots))
  }

  predicate Admits(c: Clock, mode: Mode) {
    c.inTick == (mode == Ticking)
  }

  function Do(c: Clock, a: Action, mode: Mode): (r: Clock)
    requires Admits(c, mode) && Fits(mode, a)
    ensures Follows(c, r, mode)
    decreases a
  {
    match a
    case Start(now, duration, natural, atOnce) =>
      if Length(duration, natural) <= 0.0 then
        DoAll(DoAll(c, atOnce.step, mode), atOnce.done, mode)
      else
        Added(c, now, Length(duration, natural))
    case Cancel(id) =>
      var i := Find(c.slots, id);
      if i == |c.slots| then c
      else StoppedIfIdle(Compacted(Noted(Inactive(c, i), Cancelled(id))))
    case Finish(id, last) =>
      var i := Find(c.slots, id);
      if i == |c.slots| then c
      else
        var stepped := DoAll(Noted(Inactive(c, i), Stepped(id, 1.0, false)), last.step, Under(mode));
        var completed := DoAll(Noted(stepped, Completed(stepped.slots[i].id)), last.done, mode);
        StoppedIfIdle(Compacted(completed))
  }

  function DoAll(c: Clock, script: Script, mode: Mode): (r: Clock)
    requires Admits(c, mode) && ScriptFits(mode, script)
    ensures Follows(c, r, mode)
    decreases script
  {
    match script
    case Nil => c
    case Then(a, rest) => DoAll(Do(c, a, mode), rest, mode)
  }

  // ---------------------------------------------------------------- the timer

  function Progress(s: Slot, now: real): (p: real)
    ensures 0.0 <= p <= 1.0
    ensures s.duration > 0.0 ==> (p == 1.0 <==> s.start + s.duration <= now)
  {
    if s.duration <= 0.0 then 1.0
    else
      var share := (now - s.start) / s.duration;
      assert share * s.duration == now - s.start;
      if share < 0.0 then 0.0 else if share >= 1.0 then 1.0 else share
  }

  /** One slot of the walk. */
  function Visit(c: Clock, now: real, r: Reaction, i: nat): (after: Clock)
    requires c.inTick && i < |c.slots|
    ensures Follows(c, after, Ticking)
  {
    var s := c.slots[i];
    if !s.active then c
    else
      var p := Progress(s, now);
      var stepped := DoAll(Noted(c, Stepped(s.id, p, true)), r.step, Ticking);
      if p < 1.0 || !stepped.slots[i].active then stepped
      else DoAll(Noted(Inactive(stepped, i), Completed(s.id)), r.done, Ticking)
  }

  /** Slots i to n - 1 in order; `reactions` says how the callbacks of each behave. */
  function Walk(c: Clock, now: real, reactions: nat -> Reaction, i: nat, n: nat): (after: Clock)
    requires c.inTick && i <= n <= |c.slots|
    ensures Follows(c, after, Ticking)
    decreases n - i
  {
    if i == n then c else Walk(Visit(c, now, reactions(i), i), now, reactions, i + 1, n)
  }

  function Tick(c: Clock, now: real, reactions: nat -> Reaction): Clock
    requires !c.inTick
  {
    var walked := Walk(c.(inTick := true), now, reactions, 0, |c.slots|);
    StoppedIfIdle(Compacted(walked.(inTick := false)))
  }

  // ---------------------------------------------------------------- one animation's story

  datatype Phase = Fresh | Live | AtEnd | Done | Gone | Bad

  function NextPhase(phase: Phase, e: Event): Phase {
    match e
    case Started(_) => if phase == Fresh then Live else Bad
    case Stepped(_, p, _) =>
      if phase == Live && 0.0 <= p < 1.0 then Live
      else if (phase == Live || phase == AtEnd) && p == 1.0 then AtEnd
      else Bad
    case Completed(_) => if phase == AtEnd then Done else Bad
    case Cancelled(_) => if phase == Live || phase == AtEnd then Gone else Bad
  }

  function PhaseOf(log: seq<Event>, id: int): Phase {
    if log == [] then Fresh
    else
      var k := |log| - 1;
      var before := PhaseOf(log[..k], id);
      if log[k].id == id then NextPhase(before, log[k]) else before
  }

  lemma PhaseStep(log: seq<Event>, e: Event, id: int)
    ensures PhaseOf(log + [e], id) == if e.id == id then NextPhase(PhaseOf(log, id), e) else PhaseOf(log, id)
  {
    assert (log + [e])[..|log|] == log;
  }

  predicate Alive(slots: seq<Slot>, id: int) {
    exists i :: 0 <= i < |slots| && slots[i].id == id && slots[i].active
  }

  predicate Known(c: Clock, id: int) {
    0 < id < c.nextId
  }

  /** The story so far agrees with the table: an id never used has none; a live
    * one is under way, at its end only if the walk is at it (`current`); any
    * other is over, or in the middle of being finished (`pending`). */
  predicate Told(c: Clock, pending: set<int>, current: int, id: int) {
    var phase := PhaseOf(c.log, id);
    if !Known(c, id) then phase == Fresh && id !in pending
    else if Alive(c.slots, id) then phase == (if id == current then AtEnd else Live) && id !in pending
    else if id in pending then phase == AtEnd
    else phase == Done || phase == Gone
  }

  predicate DistinctIds(slots: seq<Slot>) {
    forall i, j :: 0 <= i < j < |slots| ==> slots[i].id != slots[j].id
  }

  ghost predicate Inv(c: Clock, pending: set<int>, current: int) {
    && c.nextId >= 1
    && (forall i :: 0 <= i < |c.slots| ==> Known(c, c.slots[i].id) && c.slots[i].duration > 0.0)
    && DistinctIds(c.slots)
    && (|c.slots| > 0 ==> c.timer)
    && (forall id :: Told(c, pending, current, id))
  }

  /** Between calls. */
  ghost predicate Idle(c: Clock) {
    && Inv(c, {}, 0)
    && !c.inTick
    && (forall i :: 0 <= i < |c.slots| ==> c.slots[i].active)
    && (c.timer <==> |c.slots| > 0)
  }
}
