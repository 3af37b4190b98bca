/** get_binding and switch_mode on the binding objects themselves. */
module BindingOps {
  import opened Order
  import opened Bindings

  class Binding {
    const spec: Spec
    var release: Release

    constructor (spec: Spec, release: Release)
      ensures this.spec == spec && this.release == release
    {
      this.spec, this.release := spec, release;
    }
  }

  ghost function View(list: seq<Binding>): (v: seq<Entry>)
    reads list
    ensures |v| == |list|
  {
    seq(|list|, i requires 0 <= i < |list| reads list => Entry(list[i].spec, list[i].release))
  }

  /** The inner loop over the keycodes of a binding. */
  method FoundKeycode(s: Spec, e: Event, anyMods: bool) returns (found: bool)
    requires s.inputType == e.inputType
    ensures found == KeyMatches(s, e, anyMods)
  {
    if !BySymbol(s) && s.keycode != e.code {
      return false;
    }
    var k := 0;
    while k < |s.keycodes|
      invariant k <= |s.keycodes| && forall j :: 0 <= j < k ==> !Chosen(s, e, j, anyMods)
    {
      var modsMatch := s.keycodes[k].state.modifiers == e.state.modifiers;
      var codeMatch := !BySymbol(s) || s.keycodes[k].code == e.code % 256;
      if codeMatch && (modsMatch || anyMods) {
        assert Chosen(s, e, k, anyMods);
        return true;
      }
      k := k + 1;
    }
    return false;
  }

  /** Whether the event gets past the first checks for this binding. */
  method Considered(b: Binding, e: Event, isRelease: bool) returns (found: bool)
    ensures found == Matches(b.spec, e, b.release == OnReleaseAnyMods && isRelease)
  {
    if b.spec.inputType != e.inputType {
      return false;
    }
    var groupMask := b.spec.mask.groups;
    if e.state.groups * groupMask != groupMask {
      return false;
    }
    found := FoundKeycode(b.spec, e, b.release == OnReleaseAnyMods && isRelease);
  }

  /** The mark of entry i once the reset that begins a press is over. */
  ghost function Reset(before: seq<Entry>, e: Event, i: nat): Release
    requires i < |before|
  {
    if before[i].spec.inputType != e.inputType then before[i].release else Unmarked(before[i]).release
  }

  /** The reset that begins a press. */
  method ResetMarks(list: seq<Binding>, e: Event)
    requires Distinct(list)
    modifies list
    ensures forall i :: 0 <= i < |list| ==> list[i].release == Reset(old(View(list)), e, i)
  {
    ghost var before := View(list);
    var i := 0;
    while i < |list|
      invariant i <= |list|
      invariant forall j :: i <= j < |list| ==> list[j].release == before[j].release
      invariant forall j :: 0 <= j < i ==> list[j].release == Reset(before, e, j)
    {
      if list[i].spec.inputType == e.inputType && list[i].release == OnReleaseAnyMods {
        list[i].release := OnRelease;
      }
      i := i + 1;
    }
  }

  /** How entry i bears on the search. */
  lemma StepsOn(before: seq<Entry>, e: Event, i: nat)
    requires i < |before| && !Stopped(before, e, i)
    ensures var hit := Matches(before[i].spec, e, false);
            && PressedEntry(before, e, i).release ==
               (if hit && before[i].release != OnPress then OnReleaseAnyMods else Reset(before, e, i))
            && (FirstPress(before, e) == i <==> hit && before[i].release == OnPress && FirstPress(before, e) >= i)
            && (Stopped(before, e, i + 1) <==> hit && before[i].release != OnPress && FirstPress(before, e) < i)
  {
  }

  lemma StoppedRest(before: seq<Entry>, e: Event, i: nat)
    requires i <= |before| && Stopped(before, e, i)
    ensures forall j :: i <= j < |before| ==> PressedEntry(before, e, j).release == Reset(before, e, j)
    ensures FirstPress(before, e) < i
  {
    forall j | i <= j < |before| ensures Stopped(before, e, j) {
    }
  }

  /** The search of a press, after the reset. */
  method SearchPress(list: seq<Binding>, e: Event, ghost before: seq<Entry>) returns (result: Binding?)
    requires Distinct(list) && |before| == |list|
    requires forall j :: 0 <= j < |list| ==> list[j].spec == before[j].spec && list[j].release == Reset(before, e, j)
    modifies list
    ensures forall j :: 0 <= j < |list| ==> list[j].release == PressedEntry(before, e, j).release
    ensures var i := FirstPress(before, e); result == if i < |list| then list[i] else null
  {
    result := null;
    var i := 0;
    var stopped := false;
    while i < |list| && !stopped
      invariant i <= |list|
      invariant forall j :: 0 <= j < i ==> list[j].release == PressedEntry(before, e, j).release
      invariant forall j :: i <= j < |list| ==> list[j].release == Reset(before, e, j)
      invariant result != null <==> FirstPress(before, e) < i
      invariant result != null ==> result == list[FirstPress(before, e)]
      invariant stopped <==> Stopped(before, e, i)
    {
      var found := Considered(list[i], e, false);
      StepsOn(before, e, i);
      if found {
        if list[i].release == OnRelease {
          list[i].release := OnReleaseAnyMods;
          stopped := result != null;
        } else if result == null {
          result := list[i];
        }
      }
      i := i + 1;
    }
    if stopped { StoppedRest(before, e, i); }
  }

  /** get_binding for a press: it returns the first press binding the event
    * matches, or nothing, and marks release bindings. */
  method PressBinding(list: seq<Binding>, e: Event) returns (result: Binding?)
    requires Distinct(list)
    modifies list
    ensures View(list) == Pressed(old(View(list)), e)
    ensures var i := FirstPress(old(View(list)), e); result == if i < |list| then list[i] else null
  {
    ghost var before := View(list);
    ResetMarks(list, e);
    result := SearchPress(list, e, before);
    assert forall j :: 0 <= j < |list| ==> View(list)[j] == PressedEntry(before, e, j);
  }

  /** get_binding for a release: nothing changes. */
  method ReleaseBinding(list: seq<Binding>, e: Event) returns (result: Binding?)
    ensures var i := FirstRelease(View(list), e); result == if i < |list| then list[i] else null
  {
    var i := 0;
    while i < |list|
      invariant i <= |list| && forall j :: 0 <= j < i ==> !Releases(View(list)[j], e)
    {
      assert View(list)[i] == Entry(list[i].spec, list[i].release);
      var found := Considered(list[i], e, true);
      if found && list[i].release != OnPress {
        return list[i];
      }
      i := i + 1;
    }
    return null;
  }

  /** The reset that ends a switch of modes. */
  method ResetAll(list: seq<Binding>)
    requires Distinct(list)
    modifies list
    ensures View(list) == AllUnmarked(old(View(list)))
  {
    ghost var before := View(list);
    var i := 0;
    while i < |list|
      invariant i <= |list|
      invariant forall j :: i <= j < |list| ==> list[j].release == before[j].release
      invariant forall j :: 0 <= j < i ==> Entry(list[j].spec, list[j].release) == Unmarked(before[j])
    {
      if list[i].release == OnReleaseAnyMods {
        list[i].release := OnRelease;
      }
      i := i + 1;
    }
    assert forall j :: 0 <= j < |list| ==> View(list)[j] == Unmarked(before[j]);
  }
}
