/** Title formats: placeholders such as %title are replaced by their values, in a
  * buffer whose size a first pass has measured. */
module Placeholders {

  datatype Placeholder = Placeholder(name: string, value: string)

  /** CS_STARTS_WITH, at position `at`. */
  predicate StartsWith(format: string, at: nat, name: string)
    requires at <= |format|
  {
    at + |name| <= |format| && format[at..at + |name|] == name
  }

  function MatchFrom(format: string, at: nat, table: seq<Placeholder>, i: nat): (k: nat)
    requires at <= |format| && i <= |table|
    ensures i <= k <= |table|
    ensures k < |table| ==> StartsWith(format, at, table[k].name)
    decreases |table| - i
  {
    if i == |table| || StartsWith(format, at, table[i].name) then i else MatchFrom(format, at, table, i + 1)
  }

  /** The first placeholder of the table whose name stands at `at`, or the length
    * of the table. */
  function FirstMatch(format: string, at: nat, table: seq<Placeholder>): (k: nat)
    requires at <= |format|
    ensures k <= |table|
    ensures k < |table| ==> StartsWith(format, at, table[k].name)
  {
    MatchFrom(format, at, table, 0)
  }

  /** No name before it stands there. */
  lemma {:induction false} MatchIsFirst(format: string, at: nat, table: seq<Placeholder>, i: nat, j: nat)
    requires at <= |format| && i <= |table| && i <= j < MatchFrom(format, at, table, i)
    ensures !StartsWith(format, at, table[j].name)
    decreases j - i
  {
    if i < j { MatchIsFirst(format, at, table, i + 1, j); }
  }

  /** A position whose name stands there, none before it doing so, is the match. */
  lemma {:induction false} MatchIsUnique(format: string, at: nat, table: seq<Placeholder>, i: nat, k: nat)
    requires at <= |format| && i <= k <= |table|
    requires k < |table| ==> StartsWith(format, at, table[k].name)
    requires forall j :: i <= j < k ==> !StartsWith(format, at, table[j].name)
    ensures MatchFrom(format, at, table, i) == k
    decreases k - i
  {
    if i < k { MatchIsUnique(format, at, table, i + 1, k); }
  }

  predicate PercentNames(table: seq<Placeholder>) {
    forall k :: 0 <= k < |table| ==> |table[k].name| > 0 && table[k].name[0] == '%'
  }

  predicate NonEmptyNames(table: seq<Placeholder>) {
    forall k :: 0 <= k < |table| ==> |table[k].name| > 0
  }

  // ---------------------------------------------------------------- the substitution

  /** What the format becomes from position `at` on. */
  function Subst(format: string, at: nat, table: seq<Placeholder>): string
    requires at <= |format| && NonEmptyNames(table)
    decreases |format| - at
  {
    if at == |format| then ""
    else
      var k := FirstMatch(format, at, table);
      if k < |table| then table[k].value + Subst(format, at + |table[k].name|, table)
      else [format[at]] + Subst(format, at + 1, table)
  }

  lemma SubstStep(format: string, at: nat, table: seq<Placeholder>)
    requires at < |format| && NonEmptyNames(table)
    ensures var k := FirstMatch(format, at, table);
            |Subst(format, at, table)| ==
              if k < |table| then |table[k].value| + |Subst(format, at + |table[k].name|, table)|
              else 1 + |Subst(format, at + 1, table)|
  {
  }

  /** A reading of a format: characters that stand for themselves, and placeholders. */
  datatype Piece = Plain(c: char) | Holder(k: nat)

  predicate InTable(pieces: seq<Piece>, table: seq<Placeholder>) {
    forall i :: 0 <= i < |pieces| && pieces[i].Holder? ==> pieces[i].k < |table|
  }

  function Width(p: Piece, table: seq<Placeholder>): nat
    requires p.Holder? ==> p.k < |table|
  {
    if p.Plain? then 1 else |table[p.k].name|
  }

  predicate Fits(p: Piece, format: string, at: nat, table: seq<Placeholder>)
    requires at <= |format| && (p.Holder? ==> p.k < |table|)
  {
    match p
    case Plain(c) =>
      at < |format| && c == format[at] && forall j :: 0 <= j < |table| ==> !StartsWith(format, at, table[j].name)
    case Holder(k) =>
      StartsWith(format, at, table[k].name) && forall j :: 0 <= j < k ==> !StartsWith(format, at, table[j].name)
  }

  /** The pieces spell the format from `at`, the leftmost name winning over any
    * that starts later, and the first in the table over any other there. */
  predicate Reads(pieces: seq<Piece>, format: string, at: nat, table: seq<Placeholder>)
    requires at <= |format| && InTable(pieces, table)
  {
    if pieces == [] then at == |format|
    else
      Fits(pieces[0], format, at, table) && Reads(pieces[1..], format, at + Width(pieces[0], table), table)
  }

  function Text(p: Piece, table: seq<Placeholder>): string
    requires p.Holder? ==> p.k < |table|
  {
    if p.Plain? then [p.c] else table[p.k].value
  }

  function Rendered(pieces: seq<Piece>, table: seq<Placeholder>): string
    requires InTable(pieces, table)
  {
    if pieces == [] then ""
    else Text(pieces[0], table) + Rendered(pieces[1..], table)
  }

  /** There is no choice in the first piece. */
  lemma HeadMatches(p: Piece, format: string, at: nat, table: seq<Placeholder>)
    requires at <= |format| && (p.Holder? ==> p.k < |table|) && Fits(p, format, at, table)
    ensures FirstMatch(format, at, table) == if p.Plain? then |table| else p.k
  {
    MatchIsUnique(format, at, table, 0, if p.Plain? then |table| else p.k);
  }

  lemma HeadRenders(p: Piece, format: string, at: nat, table: seq<Placeholder>)
    requires at <= |format| && NonEmptyNames(table) && (p.Holder? ==> p.k < |table|) && Fits(p, format, at, table)
    ensures at + Width(p, table) <= |format|
    ensures Subst(format, at, table) == Text(p, table) + Subst(format, at + Width(p, table), table)
  {
    HeadMatches(p, format, at, table);
  }

  /** What is left of a reading behind its first piece. */
  lemma ReadOn(pieces: seq<Piece>, format: string, at: nat, table: seq<Placeholder>)
    returns (rest: seq<Piece>, next: nat)
    requires at <= |format| && NonEmptyNames(table) && InTable(pieces, table) && Reads(pieces, format, at, table) &&
             pieces != []
    ensures |rest| < |pieces| && next <= |format| && InTable(rest, table) && Reads(rest, format, next, table)
    ensures Rendered(rest, table) == Subst(format, next, table) ==> Rendered(pieces, table) == Subst(format, at, table)
  {
    HeadRenders(pieces[0], format, at, table);
    rest, next := pieces[1..], at + Width(pieces[0], table);
  }

  /** There is a reading of every format, and every reading renders to the same text. */
  lemma {:induction false} ReadingRenders(pieces: seq<Piece>, format: string, at: nat, table: seq<Placeholder>)
    requires at <= |format| && NonEmptyNames(table) && InTable(pieces, table) && Reads(pieces, format, at, table)
    ensures Rendered(pieces, table) == Subst(format, at, table)
    decreases |pieces|
  {
    if pieces == [] {
    } else {
      var rest, next := ReadOn(pieces, format, at, table);
      ReadingRenders(rest, format, next, table);
    }
  }

  lemma {:induction false} ReadingExists(format: string, at: nat, table: seq<Placeholder>)
    returns (pieces: seq<Piece>)
    requires at <= |format| && NonEmptyNames(table)
    ensures InTable(pieces, table) && Reads(pieces, format, at, table)
    decreases |format| - at
  {
    if at == |format| {
      pieces := [];
    } else {
      var k := FirstMatch(format, at, table);
      var p := if k < |table| then Holder(k) else Plain(format[at]);
      forall j | 0 <= j < k ensures !StartsWith(format, at, table[j].name) {
        MatchIsFirst(format, at, table, 0, j);
      }
      var rest := ReadingExists(format, at + Width(p, table), table);
      pieces := [p] + rest;
      assert pieces[1..] == rest;
    }
  }

  lemma NoPercentNoMatch(format: string, at: nat, table: seq<Placeholder>)
    requires at < |format| && PercentNames(table) && format[at] != '%'
    ensures FirstMatch(format, at, table) == |table|
  {
    forall k | 0 <= k < |table| ensures !StartsWith(format, at, table[k].name) {
      var n := |table[k].name|;
      assert at + n <= |format| ==> format[at..at + n][0] == format[at];
    }
    MatchIsUnique(format, at, table, 0, |table|);
  }

  /** Text without a percent sign stays as it is. */
  lemma {:induction false} PlainStays(format: string, at: nat, table: seq<Placeholder>)
    requires at <= |format| && PercentNames(table) && '%' !in format[at..]
    ensures Subst(format, at, table) == format[at..]
    decreases |format| - at
  {
    if at < |format| {
      assert format[at] == format[at..][0];
      NoPercentNoMatch(format, at, table);
      assert forall c :: c in format[at + 1..] ==> c in format[at..];
      PlainStays(format, at + 1, table);
    }
  }

  // ---------------------------------------------------------------- the two passes

  method Match(format: string, at: nat, table: seq<Placeholder>) returns (i: nat)
    requires at <= |format|
    ensures i == FirstMatch(format, at, table)
  {
    i := 0;
    while i < |table|
      invariant i <= |table| && MatchFrom(format, at, table, 0) == MatchFrom(format, at, table, i)
    {
      if StartsWith(format, at, table[i].name) {
        return;
      }
      i := i + 1;
    }
  }

  /** The measuring pass: exactly the room the result and its terminator take. */
  method Measure(format: string, table: seq<Placeholder>) returns (bufferLen: int)
    requires NonEmptyNames(table)
    ensures bufferLen == |Subst(format, 0, table)| + 1
  {
    bufferLen := |format| + 1;
    var walk := 0;
    while walk < |format|
      invariant 0 <= walk <= |format|
      invariant bufferLen - 1 - (|format| - walk) + |Subst(format, walk, table)| == |Subst(format, 0, table)|
    {
      var i := Match(format, walk, table);
      SubstStep(format, walk, table);
      if i < |table| {
        bufferLen := bufferLen - |table[i].name| + |table[i].value|;
        walk := walk + (|table[i].name| - 1);
      }
      walk := walk + 1;
    }
  }

  /** sprintf of a string: its characters and the terminator. */
  method Print(buffer: array<char>, at: nat, value: string)
    requires at + |value| < buffer.Length
    modifies buffer
    ensures buffer[..at + |value|] == old(buffer[..at]) + value && buffer[at + |value|] == '\0'
  {
    var i := 0;
    while i < |value|
      invariant i <= |value|
      invariant buffer[..at] == old(buffer[..at])
      invariant forall j :: 0 <= j < i ==> buffer[at + j] == value[j]
    {
      buffer[at + i] := value[i];
      i := i + 1;
    }
    buffer[at + |value|] := '\0';
  }

  predicate Taken(format: string, at: nat, table: seq<Placeholder>)
    requires at < |format|
  {
    format[at] == '%' && FirstMatch(format, at, table) < |table|
  }

  function Chunk(format: string, at: nat, table: seq<Placeholder>): string
    requires at < |format|
  {
    if Taken(format, at, table) then table[FirstMatch(format, at, table)].value else [format[at]]
  }

  function Step(format: string, at: nat, table: seq<Placeholder>): (n: nat)
    requires at < |format| && NonEmptyNames(table)
    ensures 0 < n <= |format| - at
  {
    if Taken(format, at, table) then |table[FirstMatch(format, at, table)].name| else 1
  }

  /** What the writing pass puts down: it looks for a name only at a percent sign. */
  function Written(format: string, at: nat, table: seq<Placeholder>): string
    requires at <= |format| && NonEmptyNames(table)
    decreases |format| - at
  {
    if at == |format| then "" else Chunk(format, at, table) + Written(format, at + Step(format, at, table), table)
  }

  lemma SameChunk(format: string, at: nat, table: seq<Placeholder>)
    requires at < |format| && PercentNames(table)
    ensures Subst(format, at, table) == Chunk(format, at, table) + Subst(format, at + Step(format, at, table), table)
  {
    if format[at] != '%' { NoPercentNoMatch(format, at, table); }
  }

  /** When all names start with a percent sign, both passes take the same matches. */
  lemma {:induction false} PassesAgree(format: string, at: nat, table: seq<Placeholder>)
    requires at <= |format| && PercentNames(table)
    ensures Written(format, at, table) == Subst(format, at, table)
    decreases |format| - at
  {
    if at < |format| {
      PassesAgree(format, at + Step(format, at, table), table);
      SameChunk(format, at, table);
    }
  }

  /** One step of the writing pass. */
  method Emit(format: string, at: nat, table: seq<Placeholder>, buffer: array<char>, out: nat)
    returns (walk: nat, outwalk: nat)
    requires NonEmptyNames(table) && at < |format| && out + |Chunk(format, at, table)| < buffer.Length
    modifies buffer
    ensures walk == at + Step(format, at, table) && outwalk == out + |Chunk(format, at, table)|
    ensures buffer[..outwalk] == old(buffer[..out]) + Chunk(format, at, table)
  {
    walk, outwalk := at, out;
    var matched := false;
    if format[walk] == '%' {
      var i := Match(format, walk, table);
      if i < |table| {
        matched := true;
        Print(buffer, outwalk, table[i].value);
        outwalk := outwalk + |table[i].value|;
        walk := walk + (|table[i].name| - 1);
      }
    }
    if !matched {
      buffer[outwalk] := format[walk];
      outwalk := outwalk + 1;
    }
    walk := walk + 1;
  }

  lemma Joined(a: string, b: string, c: string)
    ensures (a + b) + c == a + (b + c)
  {
  }

  lemma WrittenStep(format: string, at: nat, table: seq<Placeholder>, done: string)
    requires NonEmptyNames(table) && at < |format|
    requires done + Written(format, at, table) == Written(format, 0, table)
    ensures |done| + |Chunk(format, at, table)| <= |Written(format, 0, table)|
    ensures (done + Chunk(format, at, table)) + Written(format, at + Step(format, at, table), table) ==
            Written(format, 0, table)
  {
    Joined(done, Chunk(format, at, table), Written(format, at + Step(format, at, table), table));
  }

  /** The writing pass, into a buffer that just holds what it writes: it fills
    * the buffer to its last place and never writes outside it. */
  method Write(format: string, table: seq<Placeholder>, buffer: array<char>)
    requires NonEmptyNames(table) && buffer.Length == |Written(format, 0, table)| + 1
    modifies buffer
    ensures buffer[..buffer.Length - 1] == Written(format, 0, table) && buffer[buffer.Length - 1] == '\0'
  {
    var walk, outwalk := 0, 0;
    while walk < |format|
      invariant 0 <= walk <= |format| && 0 <= outwalk < buffer.Length
      invariant buffer[..outwalk] + Written(format, walk, table) == Written(format, 0, table)
    {
      WrittenStep(format, walk, table, buffer[..outwalk]);
      walk, outwalk := Emit(format, walk, table, buffer, outwalk);
    }
    buffer[outwalk] := '\0';
  }

  method FormatPlaceholders(format: string, table: seq<Placeholder>) returns (r: string)
    requires PercentNames(table)
    ensures r == Subst(format, 0, table)
  {
    var bufferLen := Measure(format, table);
    PassesAgree(format, 0, table);
    var buffer := new char[bufferLen];
    Write(format, table, buffer);
    r := buffer[..bufferLen - 1];
  }

  /** With a name that does not start with a percent sign the passes can
    * disagree: only the measuring pass takes the match, and measures too little. */
  lemma OtherNamesDisagree()
    ensures var table := [Placeholder("x", "")];
            |Subst("x", 0, table)| < |Written("x", 0, table)|
  {
    var table := [Placeholder("x", "")];
    assert StartsWith("x", 0, table[0].name);
    assert FirstMatch("x", 0, table) == 0;
    assert Subst("x", 1, table) == "";
  }
}
