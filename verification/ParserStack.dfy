/** The ten-place stack on which a command collects its identified tokens. */
module ParserStack {
  import opened Order

  datatype Value = Text(text: string) | Num(num: int)

  datatype Entry = Entry(identifier: string, value: Value)

  const PLACES := 10

  function FindEntry(entries: seq<Entry>, identifier: string): (i: nat)
    ensures i <= |entries| && (i < |entries| ==> entries[i].identifier == identifier)
    ensures forall j :: 0 <= j < i ==> entries[j].identifier != identifier
  {
    if entries == [] || entries[0].identifier == identifier then 0
    else
      var i := FindEntry(entries[1..], identifier);
      assert forall j :: 0 < j < |entries| ==> entries[j] == entries[1..][j - 1];
      i + 1
  }

  /** Strings of one identifier are joined by commas in one place.  None stands
    * for the program giving up: the places are used up, or the place holds a
    * number. */
  function PushedString(entries: seq<Entry>, identifier: string, str: string): Option<seq<Entry>> {
    var i := FindEntry(entries, identifier);
    if i < |entries| then
      if entries[i].value.Text? then Some(entries[i := Entry(identifier, Text(entries[i].value.text + "," + str))])
      else None
    else if i < PLACES then Some(entries + [Entry(identifier, Text(str))])
    else None
  }

  /** A number always takes a place of its own. */
  function PushedNumber(entries: seq<Entry>, identifier: string, num: int): Option<seq<Entry>> {
    if |entries| < PLACES then Some(entries + [Entry(identifier, Num(num))]) else None
  }

  /** A string joins the first entry of its identifier, behind a comma, if that is
    * text; the others stay. */
  lemma StringJoins(entries: seq<Entry>, identifier: string, str: string, i: nat)
    requires i < |entries| && entries[i].identifier == identifier
    requires forall j :: 0 <= j < i ==> entries[j].identifier != identifier
    ensures PushedString(entries, identifier, str) ==
            match entries[i].value
            case Text(text) =>
              Some(entries[..i] + [Entry(identifier, Text(text + "," + str))] + entries[i + 1..])
            case Num(_) => None
  {
    assert FindEntry(entries, identifier) == i;
    assert forall e :: entries[i := e] == entries[..i] + [e] + entries[i + 1..];
  }

  /** Without one it takes a place of its own, if there is one among the ten. */
  lemma StringAdds(entries: seq<Entry>, identifier: string, str: string)
    requires forall j :: 0 <= j < |entries| ==> entries[j].identifier != identifier
    ensures PushedString(entries, identifier, str) ==
            if |entries| < 10 then Some(entries + [Entry(identifier, Text(str))]) else None
  {
    assert FindEntry(entries, identifier) == |entries|;
  }

  class Stack {
    const places: array<Option<Entry>>
    ghost var contents: seq<Entry>

    ghost predicate Valid()
      reads this, places
    {
      && places.Length == PLACES
      && |contents| <= PLACES
      && forall i :: 0 <= i < PLACES ==> places[i] == if i < |contents| then Some(contents[i]) else None
    }

    constructor ()
      ensures Valid() && contents == [] && fresh(places)
    {
      places := new Option<Entry>[PLACES](_ => None);
      contents := [];
    }

    /** parser_push_string. */
    method PushString(identifier: string, str: string) returns (ok: bool)
      requires Valid()
      modifies this, places
      ensures Valid()
      ensures ok == PushedString(old(contents), identifier, str).Some?
      ensures contents == if ok then PushedString(old(contents), identifier, str).value else old(contents)
    {
      var c := 0;
      while c < PLACES && places[c].Some? && places[c].value.identifier != identifier
        invariant 0 <= c <= |contents|
        invariant forall j :: 0 <= j < c ==> contents[j].identifier != identifier
      {
        c := c + 1;
      }
      if c == PLACES {
        return false;
      }
      if places[c].None? {
        var entry := Entry(identifier, Text(str));
        places[c] := Some(entry);
        contents := contents + [entry];
        return true;
      }
      if places[c].value.value.Num? {
        return false;
      }
      var entry := Entry(identifier, Text(places[c].value.value.text + "," + str));
      places[c] := Some(entry);
      contents := contents[c := entry];
      ok := true;
    }

    /** parser_push_long. */
    method PushNumber(identifier: string, num: int) returns (ok: bool)
      requires Valid()
      modifies this, places
      ensures Valid()
      ensures ok == PushedNumber(old(contents), identifier, num).Some?
      ensures contents == if ok then PushedNumber(old(contents), identifier, num).value else old(contents)
    {
      var c := 0;
      while c < PLACES && places[c].Some?
        invariant 0 <= c <= |contents|
      {
        c := c + 1;
      }
      if c == PLACES {
        return false;
      }
      places[c] := Some(Entry(identifier, Num(num)));
      contents := contents + [Entry(identifier, Num(num))];
      ok := true;
    }

    /** What a called command can look up: the places in use. */
    method Entries() returns (entries: seq<Entry>)
      requires Valid()
      ensures entries == contents
    {
      entries := [];
      var c := 0;
      while c < PLACES && places[c].Some?
        invariant 0 <= c <= |contents| && entries == contents[..c]
      {
        entries := entries + [places[c].value];
        c := c + 1;
      }
    }

    /** parser_clear_stack. */
    method Clear()
      requires Valid()
      modifies this, places
      ensures Valid() && contents == []
    {
      var c := 0;
      while c < PLACES
        invariant 0 <= c <= PLACES && forall j :: 0 <= j < c ==> places[j] == None
      {
        places[c] := None;
        c := c + 1;
      }
      contents := [];
    }
  }
}
