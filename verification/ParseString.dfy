/** Reading a string or a word off a command line, quoted or bare. */
module ParseString {

  import opened Order

  /** Command lines end at their terminator and hold no other. */
  predicate NulFree(s: string) {
    forall i :: 0 <= i < |s| ==> s[i] != '\0'
  }

  /** The character at a position, the terminator included. */
  function At(s: string, i: nat): char
    requires i <= |s|
  {
    if i < |s| then s[i] else '\0'
  }

  predicate Delimiter(c: char, asWord: bool) {
    || c == ';' || c == ',' || c == '\0' || c == '\r' || c == '\n'
    || (asWord && (c == ' ' || c == '\t' || c == ']'))
  }

  predicate Special(c: char) {
    c == '"' || c == '\\'
  }

  // ---------------------------------------------------------------- the scan

  /** The end of a bare word or string: the first delimiter. */
  function BareEnd(s: string, i: nat, asWord: bool): (e: nat)
    requires i <= |s|
    ensures i <= e <= |s| && Delimiter(At(s, e), asWord)
    ensures forall k :: i <= k < e ==> !Delimiter(s[k], asWord)
    decreases |s| - i
  {
    if Delimiter(At(s, i), asWord) then i else BareEnd(s, i + 1, asWord)
  }

  /** The end of a quoted one: the first quote no backslash stands for. */
  function QuotedEnd(s: string, i: nat): (e: nat)
    requires i <= |s|
    ensures i <= e <= |s| && (e < |s| ==> s[e] == '"')
    decreases |s| - i
  {
    if i == |s| || s[i] == '"' then i
    else if s[i] == '\\' && i + 1 < |s| then QuotedEnd(s, i + 2)
    else QuotedEnd(s, i + 1)
  }

  function Quoted(s: string, i: nat): bool
    requires i <= |s|
  {
    At(s, i) == '"'
  }

  function Beginning(s: string, i: nat): (b: nat)
    requires i <= |s|
    ensures b <= |s|
  {
    if Quoted(s, i) then i + 1 else i
  }

  function End(s: string, i: nat, asWord: bool): (e: nat)
    requires i <= |s|
    ensures Beginning(s, i) <= e <= |s|
  {
    if Quoted(s, i) then QuotedEnd(s, i + 1) else BareEnd(s, i, asWord)
  }

  // ---------------------------------------------------------------- decoding

  /** Only a backslash before a quote or another backslash escapes. */
  predicate Escapes(s: string, i: nat)
    requires i < |s|
  {
    s[i] == '\\' && Special(At(s, i + 1))
  }

  /** Decoding from i takes pairs and single characters and arrives exactly at e. */
  predicate Lands(s: string, i: nat, e: nat)
    requires i <= |s| && e <= |s|
    decreases |s| - i
  {
    if i >= e then i == e
    else if Escapes(s, i) then i + 2 <= |s| && Lands(s, i + 2, e)
    else Lands(s, i + 1, e)
  }

  function Decoded(s: string, i: nat, e: nat): string
    requires i <= e <= |s| && Lands(s, i, e)
    decreases e - i
  {
    if i == e then ""
    else if Escapes(s, i) then
      assert Lands(s, i + 2, e);
      [s[i + 1]] + Decoded(s, i + 2, e)
    else [s[i]] + Decoded(s, i + 1, e)
  }

  lemma {:induction false} QuotedLands(s: string, i: nat)
    requires i <= |s| && NulFree(s)
    ensures Lands(s, i, QuotedEnd(s, i))
    decreases |s| - i
  {
    if i < |s| && s[i] != '"' {
      if s[i] == '\\' && i + 1 < |s| {
        QuotedLands(s, i + 2);
        if !Special(s[i + 1]) { assert Lands(s, i + 1, QuotedEnd(s, i)); }
      } else {
        QuotedLands(s, i + 1);
      }
    }
  }

  lemma {:induction false} BareLands(s: string, i: nat, e: nat, asWord: bool)
    requires i <= e <= |s| && Delimiter(At(s, e), asWord)
    requires forall k :: i <= k < e ==> !Delimiter(s[k], asWord)
    ensures Lands(s, i, e)
    decreases |s| - i
  {
    if i < e {
      if Escapes(s, i) {
        assert i + 1 != e;
        BareLands(s, i + 2, e, asWord);
      } else {
        BareLands(s, i + 1, e, asWord);
      }
    }
  }

  /** For every input the scan and the decoding agree: decoding consumes exactly
    * the scanned range. */
  lemma ScanLands(s: string, i: nat, asWord: bool)
    requires i <= |s| && NulFree(s)
    ensures Lands(s, Beginning(s, i), End(s, i, asWord))
  {
    if Quoted(s, i) {
      QuotedLands(s, i + 1);
    } else {
      BareLands(s, i, BareEnd(s, i, asWord), asWord);
    }
  }

  /** What is read at position i: nothing if the range is empty. */
  function Reading(s: string, i: nat, asWord: bool): Option<string>
    requires i <= |s| && NulFree(s)
  {
    ScanLands(s, i, asWord);
    var b, e := Beginning(s, i), End(s, i, asWord);
    if b == e then None else Some(Decoded(s, b, e))
  }

  // ---------------------------------------------------------------- round trip

  function Escape(x: string): string {
    if x == "" then ""
    else (if Special(x[0]) then ['\\', x[0]] else [x[0]]) + Escape(x[1..])
  }

  /** s has the escaped x at i, then a quote. */
  predicate Carries(s: string, i: nat, x: string)
    requires i <= |s|
  {
    i + |Escape(x)| < |s| && s[i..i + |Escape(x)|] == Escape(x) && s[i + |Escape(x)|] == '"'
  }

  lemma CarriesRest(s: string, i: nat, x: string)
    requires i <= |s| && x != "" && Carries(s, i, x)
    ensures Special(x[0]) ==> s[i] == '\\' && s[i + 1] == x[0] && Carries(s, i + 2, x[1..])
    ensures !Special(x[0]) ==> s[i] == x[0] && Carries(s, i + 1, x[1..])
  {
    var head := if Special(x[0]) then ['\\', x[0]] else [x[0]];
    var n := i + |Escape(x)|;
    assert Escape(x) == head + Escape(x[1..]);
    assert s[i..n][..|head|] == head;
    assert s[i + |head|..n] == s[i..n][|head|..] == Escape(x[1..]);
    assert s[i] == s[i..n][0] == head[0];
    assert |head| == 2 ==> s[i + 1] == s[i..n][1] == head[1];
  }

  lemma {:induction false} EscapedScan(s: string, i: nat, x: string)
    requires i <= |s| && Carries(s, i, x)
    ensures QuotedEnd(s, i) == i + |Escape(x)|
    decreases |x|
  {
    if x != "" {
      CarriesRest(s, i, x);
      EscapedScan(s, if Special(x[0]) then i + 2 else i + 1, x[1..]);
    }
  }

  lemma {:induction false} EscapedDecodes(s: string, i: nat, x: string)
    requires i <= |s| && Carries(s, i, x) && Lands(s, i, i + |Escape(x)|)
    ensures Decoded(s, i, i + |Escape(x)|) == x
    decreases |x|
  {
    if x != "" {
      CarriesRest(s, i, x);
      EscapedDecodes(s, if Special(x[0]) then i + 2 else i + 1, x[1..]);
    }
  }

  lemma EscapeEmpty(x: string)
    ensures |Escape(x)| > 0 <==> x != ""
  {
    if x != "" { assert |Escape(x)| >= |Escape(x[1..])| + 1; }
  }

  lemma {:induction false} EscapeNulFree(x: string)
    requires NulFree(x)
    ensures NulFree(Escape(x))
  {
    if x != "" { EscapeNulFree(x[1..]); }
  }

  /** Any non-empty text, escaped and put in quotes anywhere in a command, is
    * read back, with the walk left on the closing quote; the empty one is not. */
  lemma QuotedRoundTrip(before: string, x: string, after: string, asWord: bool)
    requires NulFree(before) && NulFree(x) && NulFree(after)
    ensures var s, i := before + "\"" + Escape(x) + "\"" + after, |before|;
            && NulFree(s)
            && Reading(s, i, asWord) == (if x == "" then None else Some(x))
            && End(s, i, asWord) == i + 1 + |Escape(x)| && s[End(s, i, asWord)] == '"'
  {
    var e := Escape(x);
    var s, i := before + "\"" + e + "\"" + after, |before|;
    EscapeNulFree(x);
    assert s[i] == '"';
    assert s[i + 1..i + 1 + |e|] == e;
    assert Carries(s, i + 1, x);
    EscapedScan(s, i + 1, x);
    ScanLands(s, i, asWord);
    EscapedDecodes(s, i + 1, x);
    EscapeEmpty(x);
  }

  /** What ends a bare word, and what ends a bare string. */
  predicate Ends(c: char, asWord: bool) {
    if asWord then c in " \t],;\r\n" else c in ",;\r\n"
  }

  lemma {:induction false} BareScan(s: string, i: nat, e: nat, asWord: bool)
    requires i <= e <= |s| && (e < |s| ==> Ends(s[e], asWord))
    requires forall k :: i <= k < e ==> !Ends(s[k], asWord) && s[k] != '\0'
    ensures BareEnd(s, i, asWord) == e
    decreases e - i
  {
    if i < e {
      BareScan(s, i + 1, e, asWord);
    }
  }

  lemma {:induction false} BareDecodes(s: string, i: nat, e: nat)
    requires i <= e <= |s| && (forall k :: i <= k < e ==> s[k] != '\\') && Lands(s, i, e)
    ensures Decoded(s, i, e) == s[i..e]
    decreases e - i
  {
    if i < e {
      BareDecodes(s, i + 1, e);
      assert s[i..e] == [s[i]] + s[i + 1..e];
    }
  }

  /** A bare text without backslashes that does not begin with a quote is read as it
    * stands, up to the first character that ends it. */
  lemma BareRoundTrip(before: string, x: string, after: string, asWord: bool)
    requires NulFree(before) && NulFree(x) && NulFree(after) && x != "" && x[0] != '"'
    requires forall k :: 0 <= k < |x| ==> x[k] != '\\' && !Ends(x[k], asWord)
    requires after != "" ==> Ends(after[0], asWord)
    ensures var s, i := before + x + after, |before|;
            NulFree(s) && Reading(s, i, asWord) == Some(x) && End(s, i, asWord) == i + |x|
  {
    var s, i := before + x + after, |before|;
    assert s[i..i + |x|] == x;
    forall k | i <= k < i + |x| ensures s[k] == x[k - i] {}
    BareScan(s, i, i + |x|, asWord);
    ScanLands(s, i, asWord);
    BareDecodes(s, i, i + |x|);
  }

  // ---------------------------------------------------------------- parse_string

  method Scan(s: string, i: nat, asWord: bool) returns (walk: nat)
    requires i <= |s| && NulFree(s)
    ensures walk == End(s, i, asWord)
  {
    walk := i;
    if At(s, walk) == '"' {
      walk := walk + 1;
      while At(s, walk) != '\0' && At(s, walk) != '"'
        invariant walk <= |s| && QuotedEnd(s, walk) == QuotedEnd(s, i + 1)
        decreases |s| - walk
      {
        if At(s, walk) == '\\' && At(s, walk + 1) != '\0' {
          walk := walk + 1;
        }
        walk := walk + 1;
      }
    } else {
      while !Delimiter(At(s, walk), asWord)
        invariant walk <= |s| && BareEnd(s, walk, asWord) == BareEnd(s, i, asWord)
        decreases |s| - walk
      {
        walk := walk + 1;
      }
    }
  }

  /** The copying loop, into a buffer with room for the range and a terminator. */
  method Decode(s: string, b: nat, e: nat) returns (r: string)
    requires b <= e <= |s| && Lands(s, b, e)
    ensures r == Decoded(s, b, e)
  {
    var str := new char[e - b + 1];
    var inpos, outpos := b, 0;
    while inpos < e
      invariant b <= inpos <= e && 0 <= outpos <= inpos - b && Lands(s, inpos, e)
      invariant str[..outpos] + Decoded(s, inpos, e) == Decoded(s, b, e)
    {
      if At(s, inpos) == '\\' && Special(At(s, inpos + 1)) {
        inpos := inpos + 1;
      }
      str[outpos] := s[inpos];
      inpos, outpos := inpos + 1, outpos + 1;
    }
    r := str[..outpos];
  }

  /** parse_string. */
  method Parse(s: string, i: nat, asWord: bool) returns (r: Option<string>, walk: nat)
    requires i <= |s| && NulFree(s)
    ensures r == Reading(s, i, asWord) && walk == End(s, i, asWord)
  {
    var b := if At(s, i) == '"' then i + 1 else i;
    walk := Scan(s, i, asWord);
    if walk == b {
      return None, walk;
    }
    ScanLands(s, i, asWord);
    var str := Decode(s, b, walk);
    r := Some(str);
  }
}
