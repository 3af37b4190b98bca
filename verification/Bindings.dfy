/** Which binding a key or button event triggers, and how release bindings
  * remember the press they belong to. */
module Bindings {

  datatype InputType = Keyboard | Mouse

  /** OnReleaseAnyMods: a release binding whose press has happened, so that the
    * modifiers may be let go before the key. */
  datatype Release = OnPress | OnRelease | OnReleaseAnyMods

  /** An event state word: the set bits of its upper half, which are keyboard
    * groups, and its lower half, which is a modifier mask. */
  datatype State = State(groups: set<nat>, modifiers: nat)

  datatype Keycode = Keycode(code: nat, state: State)

  datatype Spec = Spec(inputType: InputType, keycode: nat, symbolic: bool, mask: State, keycodes: seq<Keycode>)

  datatype Event = Event(inputType: InputType, state: State, code: nat)

  datatype Entry = Entry(spec: Spec, release: Release)

  // ---------------------------------------------------------------- matching

  predicate GroupsMatch(s: Spec, e: Event) {
    e.state.groups * s.mask.groups == s.mask.groups
  }

  predicate ModsMatch(k: Keycode, e: Event) {
    k.state.modifiers == e.state.modifiers
  }

  /** A symbol is looked up among its keycodes, which are eight bits wide. */
  predicate BySymbol(s: Spec) {
    s.inputType == Keyboard && s.symbolic
  }

  predicate Chosen(s: Spec, e: Event, k: nat, anyMods: bool)
    requires k < |s.keycodes|
  {
    && (BySymbol(s) ==> s.keycodes[k].code == e.code % 256)
    && (ModsMatch(s.keycodes[k], e) || anyMods)
  }

  predicate KeyMatches(s: Spec, e: Event, anyMods: bool) {
    && (!BySymbol(s) ==> s.keycode == e.code)
    && exists k :: 0 <= k < |s.keycodes| && Chosen(s, e, k, anyMods)
  }

  /** The input type, the groups, the key and, unless excused, the modifiers. */
  predicate Matches(s: Spec, e: Event, anyMods: bool) {
    s.inputType == e.inputType && GroupsMatch(s, e) && KeyMatches(s, e, anyMods)
  }

  // ---------------------------------------------------------------- presses

  function Unmarked(b: Entry): Entry {
    if b.release == OnReleaseAnyMods then b.(release := OnRelease) else b
  }

  predicate PressHit(b: Entry, e: Event) {
    b.release == OnPress && Matches(b.spec, e, false)
  }

  predicate ReleaseHit(b: Entry, e: Event) {
    b.release != OnPress && Matches(b.spec, e, false)
  }

  /** The first press binding the event matches, or the length of the list. */
  function FirstPress(list: seq<Entry>, e: Event): (i: nat)
    ensures i <= |list| && (i < |list| ==> PressHit(list[i], e))
    ensures forall j :: 0 <= j < i ==> !PressHit(list[j], e)
  {
    if list == [] || PressHit(list[0], e) then 0
    else
      var i := FirstPress(list[1..], e);
      assert forall j :: 0 < j < |list| ==> list[j] == list[1..][j - 1];
      i + 1
  }

  /** The search stopped before i: a release binding matched after a press
    * binding had. */
  predicate Stopped(list: seq<Entry>, e: Event, i: nat)
    requires i <= |list|
  {
    exists q :: FirstPress(list, e) < q < i && ReleaseHit(list[q], e)
  }

  /** What a press makes of entry i: among the bindings of its input type, a
    * release binding is marked exactly when it matches, unless the search
    * stopped before it. */
  function PressedEntry(list: seq<Entry>, e: Event, i: nat): Entry
    requires i < |list|
  {
    if list[i].spec.inputType != e.inputType then list[i]
    else if ReleaseHit(list[i], e) && !Stopped(list, e, i) then list[i].(release := OnReleaseAnyMods)
    else Unmarked(list[i])
  }

  function Pressed(list: seq<Entry>, e: Event): seq<Entry> {
    seq(|list|, i requires 0 <= i < |list| => PressedEntry(list, e, i))
  }

  // ---------------------------------------------------------------- releases

  predicate Releases(b: Entry, e: Event) {
    b.release != OnPress && Matches(b.spec, e, b.release == OnReleaseAnyMods)
  }

  /** The first release binding the event matches, its modifiers excused if it is
    * marked; or the length of the list. */
  function FirstRelease(list: seq<Entry>, e: Event): (i: nat)
    ensures i <= |list| && (i < |list| ==> Releases(list[i], e))
    ensures forall j :: 0 <= j < i ==> !Releases(list[j], e)
  {
    if list == [] || Releases(list[0], e) then 0
    else
      var i := FirstRelease(list[1..], e);
      assert forall j :: 0 < j < |list| ==> list[j] == list[1..][j - 1];
      i + 1
  }

  /** The event comes from the device, the key and the groups of the binding. */
  ghost predicate Reaches(s: Spec, e: Event, k: Keycode) {
    && k in s.keycodes && s.inputType == e.inputType && s.mask.groups <= e.state.groups
    && if s.inputType == Keyboard && s.symbolic then k.code == e.code % 256 else s.keycode == e.code
  }

  lemma MatchExactly(s: Spec, e: Event, anyMods: bool)
    ensures Matches(s, e, anyMods) <==>
            exists k: Keycode :: Reaches(s, e, k) && (anyMods || k.state.modifiers == e.state.modifiers)
  {
    assert e.state.groups * s.mask.groups == s.mask.groups <==> s.mask.groups <= e.state.groups;
    if Matches(s, e, anyMods) {
      var i :| 0 <= i < |s.keycodes| && Chosen(s, e, i, anyMods);
      assert Reaches(s, e, s.keycodes[i]);
    }
    if k: Keycode :| Reaches(s, e, k) && (anyMods || k.state.modifiers == e.state.modifiers) {
      var i :| 0 <= i < |s.keycodes| && s.keycodes[i] == k;
      assert Chosen(s, e, i, anyMods);
    }
  }

  /** A press triggers a press binding, and a release an unmarked release binding,
    * only with exactly the modifiers of one of its keycodes; for a marked one they
    * do not matter.  Neither triggers a binding of the other kind. */
  lemma TriggersExactly(b: Entry, e: Event)
    ensures PressHit(b, e) <==>
            b.release == OnPress &&
              exists k: Keycode :: Reaches(b.spec, e, k) && k.state.modifiers == e.state.modifiers
    ensures b.release == OnRelease ==>
              (Releases(b, e) <==> exists k: Keycode :: Reaches(b.spec, e, k) && k.state.modifiers == e.state.modifiers)
    ensures b.release == OnReleaseAnyMods ==> (Releases(b, e) <==> exists k: Keycode :: Reaches(b.spec, e, k))
    ensures b.release == OnPress ==> !Releases(b, e)
  {
    MatchExactly(b.spec, e, false);
    MatchExactly(b.spec, e, true);
  }

  /** The first release binding a press matches is always marked, so letting go
    * of that key triggers a release binding whatever the modifiers are then, as
    * long as the keyboard groups still match it. */
  lemma PressThenRelease(list: seq<Entry>, press: Event, release: Event, r: nat)
    requires r < |list| && ReleaseHit(list[r], press)
    requires forall j :: 0 <= j < r ==> !ReleaseHit(list[j], press)
    requires release.inputType == press.inputType && release.code == press.code
    requires GroupsMatch(list[r].spec, release)
    ensures Pressed(list, press)[r].release == OnReleaseAnyMods
    ensures FirstRelease(Pressed(list, press), release) <= r
  {
    assert !Stopped(list, press, r);
    var b := Pressed(list, press)[r];
    assert b == PressedEntry(list, press, r);
    var k :| 0 <= k < |b.spec.keycodes| && Chosen(b.spec, press, k, false);
    assert Chosen(b.spec, release, k, true);
    assert Releases(b, release);
  }

  /** A release binding that matches the press is marked exactly when no other
    * release binding before it matches behind a matching press binding. */
  lemma MarkedUnlessStopped(list: seq<Entry>, e: Event, i: nat)
    requires i < |list| && ReleaseHit(list[i], e)
    ensures Pressed(list, e)[i].release == OnReleaseAnyMods <==> !Stopped(list, e, i)
    ensures Stopped(list, e, i) <==> exists p, q :: 0 <= p < q < i && PressHit(list[p], e) && ReleaseHit(list[q], e)
  {
    assert Pressed(list, e)[i] == PressedEntry(list, e, i);
    if Stopped(list, e, i) {
      var q :| FirstPress(list, e) < q < i && ReleaseHit(list[q], e);
      assert PressHit(list[FirstPress(list, e)], e);
    }
  }

  /** A press changes nothing else: no binding of the other input type and no press
    * binding, and a release binding it does not match is unmarked. */
  lemma PressMarks(list: seq<Entry>, e: Event, i: nat)
    requires i < |list|
    ensures |Pressed(list, e)| == |list| && Pressed(list, e)[i].spec == list[i].spec
    ensures list[i].spec.inputType != e.inputType || list[i].release == OnPress ==> Pressed(list, e)[i] == list[i]
    ensures list[i].spec.inputType == e.inputType && list[i].release != OnPress ==>
              (Pressed(list, e)[i].release == OnReleaseAnyMods <==>
                 && (exists k: Keycode :: Reaches(list[i].spec, e, k) && k.state.modifiers == e.state.modifiers)
                 && !exists p, q :: 0 <= p < q < i && PressHit(list[p], e) && ReleaseHit(list[q], e))
    ensures list[i].release != OnPress ==> Pressed(list, e)[i].release != OnPress
  {
    assert Pressed(list, e)[i] == PressedEntry(list, e, i);
    MatchExactly(list[i].spec, e, false);
    if ReleaseHit(list[i], e) { MarkedUnlessStopped(list, e, i); }
  }

  /** A later one may be left out: behind a matching press binding and another
    * matching release binding. */
  lemma LaterReleaseUnmarked()
    ensures exists list: seq<Entry>, e: Event ::
              |list| == 3 && ReleaseHit(list[2], e) && Pressed(list, e)[2].release == OnRelease
  {
    var none := State({}, 0);
    var spec := Spec(Keyboard, 38, false, none, [Keycode(38, none)]);
    var list := [Entry(spec, OnPress), Entry(spec, OnRelease), Entry(spec, OnRelease)];
    var e := Event(Keyboard, none, 38);
    assert Chosen(spec, e, 0, false);
    assert Matches(spec, e, false);
    assert PressHit(list[0], e) && FirstPress(list, e) == 0;
    assert ReleaseHit(list[1], e) && ReleaseHit(list[2], e) && Stopped(list, e, 2);
    assert Pressed(list, e)[2] == PressedEntry(list, e, 2);
  }

  // ---------------------------------------------------------------- runs

  datatype Input = Press(event: Event) | LetGo(event: Event) | SwitchMode(name: string)

  datatype Mode = Mode(name: string, list: seq<Entry>)

  /** The modes, the current one, and what was last pressed of each input type. */
  datatype Board = Board(modes: seq<Mode>, current: nat, latest: map<InputType, Event>)

  function FindMode(modes: seq<Mode>, name: string): (i: nat)
    ensures i <= |modes| && (i < |modes| ==> modes[i].name == name)
    ensures forall j :: 0 <= j < i ==> modes[j].name != name
  {
    if modes == [] || modes[0].name == name then 0
    else
      var i := FindMode(modes[1..], name);
      assert forall j :: 0 < j < |modes| ==> modes[j] == modes[1..][j - 1];
      i + 1
  }

  function AllUnmarked(list: seq<Entry>): seq<Entry> {
    seq(|list|, i requires 0 <= i < |list| => Unmarked(list[i]))
  }

  function Next(b: Board, input: Input): Board
    requires b.current < |b.modes|
  {
    match input
    case Press(e) =>
      var m := b.modes[b.current];
      b.(modes := b.modes[b.current := m.(list := Pressed(m.list, e))], latest := b.latest[e.inputType := e])
    case LetGo(_) => b
    case SwitchMode(name) =>
      var i := FindMode(b.modes, name);
      if i == |b.modes| then b
      else b.(modes := b.modes[i := b.modes[i].(list := AllUnmarked(b.modes[i].list))], current := i)
  }

  /** A press is for the bindings of the current mode. */
  lemma PressMeans(b: Board, e: Event, m: nat)
    requires b.current < |b.modes| && m < |b.modes|
    ensures var n := Next(b, Press(e));
            && n.current == b.current && |n.modes| == |b.modes| && n.modes[m].name == b.modes[m].name
            && n.modes[m].list == (if m == b.current then Pressed(b.modes[m].list, e) else b.modes[m].list)
            && e.inputType in n.latest && n.latest[e.inputType] == e
            && forall t :: t != e.inputType ==> (t in n.latest <==> t in b.latest) &&
                                                (t in b.latest ==> n.latest[t] == b.latest[t])
  {
  }

  /** Switching goes to the first mode of the name and unmarks its bindings; without
    * one nothing happens. */
  lemma SwitchMeans(b: Board, name: string, i: nat)
    requires b.current < |b.modes| && i <= |b.modes| && forall j :: 0 <= j < i ==> b.modes[j].name != name
    ensures i == |b.modes| ==> Next(b, SwitchMode(name)) == b
    ensures i < |b.modes| && b.modes[i].name == name ==>
              var n, s := Next(b, SwitchMode(name)), b.modes[i].list;
              && n == b.(modes := n.modes, current := i) && |n.modes| == |b.modes| && n.modes[i].name == name
              && (forall m :: 0 <= m < |b.modes| && m != i ==> n.modes[m] == b.modes[m])
              && |n.modes[i].list| == |s| && forall j :: 0 <= j < |s| ==>
                   n.modes[i].list[j] == s[j].(release := if s[j].release == OnPress then OnPress else OnRelease)
  {
    var k := FindMode(b.modes, name);
    if i < |b.modes| && b.modes[i].name == name { assert k == i; }
    if i == |b.modes| { assert k == i; }
  }

  predicate Marked(b: Entry, latest: map<InputType, Event>) {
    b.release == OnReleaseAnyMods ==>
      b.spec.inputType in latest && Matches(b.spec, latest[b.spec.inputType], false)
  }

  /** A marked binding of the current mode matched the latest press of its type. */
  predicate Remembers(b: Board) {
    && b.current < |b.modes|
    && (forall t :: t in b.latest ==> b.latest[t].inputType == t)
    && forall i {:trigger b.modes[b.current].list[i]} :: 0 <= i < |b.modes[b.current].list| ==>
         Marked(b.modes[b.current].list[i], b.latest)
  }

  function Run(b: Board, inputs: seq<Input>): (r: Board)
    requires b.current < |b.modes|
    ensures r.current < |r.modes|
  {
    if inputs == [] then b else Next(Run(b, inputs[..|inputs| - 1]), inputs[|inputs| - 1])
  }

  /** A run takes its inputs one after the other. */
  lemma RunSteps(b: Board, inputs: seq<Input>, input: Input)
    requires b.current < |b.modes|
    ensures Run(b, []) == b && Run(b, inputs + [input]) == Next(Run(b, inputs), input)
    ensures forall e :: Next(b, LetGo(e)) == b
  {
    assert (inputs + [input])[..|inputs|] == inputs;
  }

  lemma NextRemembers(b: Board, input: Input)
    requires Remembers(b)
    ensures Remembers(Next(b, input))
  {
    match input {
      case LetGo(_) =>
      case Press(e) =>
        var list := b.modes[b.current].list;
        var after := Next(b, input);
        assert after.modes[after.current].list == Pressed(list, e);
        forall i | 0 <= i < |list| ensures Marked(Pressed(list, e)[i], after.latest) {
          assert Pressed(list, e)[i] == PressedEntry(list, e, i);
          assert Marked(list[i], b.latest);
        }
      case SwitchMode(name) =>
    }
  }

  /** In every run of presses, releases and mode switches, a marked binding of
    * the current mode matched the key, the modifiers and the groups of the latest
    * press of its input type. */
  lemma {:induction false} RunsRemember(b: Board, inputs: seq<Input>)
    requires Remembers(b)
    ensures Remembers(Run(b, inputs))
  {
    if inputs != [] {
      RunsRemember(b, inputs[..|inputs| - 1]);
      NextRemembers(Run(b, inputs[..|inputs| - 1]), inputs[|inputs| - 1]);
    }
  }

  /** So in every run, a release event only triggers a release binding that it
    * matches itself, or whose own press was the latest of its type. */
  lemma RunsRelease(b: Board, inputs: seq<Input>, e: Event)
    requires Remembers(b)
    ensures var r := Run(b, inputs);
            var list := r.modes[r.current].list;
            var i := FirstRelease(list, e);
            i < |list| ==>
              && list[i].release != OnPress
              && Matches(list[i].spec, e, true)
              && (Matches(list[i].spec, e, false)
                  || (e.inputType in r.latest && Matches(list[i].spec, r.latest[e.inputType], false)))
  {
    RunsRemember(b, inputs);
    var r := Run(b, inputs);
    var list := r.modes[r.current].list;
    var i := FirstRelease(list, e);
    if i < |list| {
      assert Marked(list[i], r.latest);
      var s := list[i].spec;
      var k :| 0 <= k < |s.keycodes| && Chosen(s, e, k, list[i].release == OnReleaseAnyMods);
      assert Chosen(s, e, k, true);
    }
  }
}
