/** What the tokens of a command line read, by what a user types for them. */
module CommandTokens {
  import opened Ascii
  import opened Order
  import opened ParseString
  import opened ParserStack
  import opened CommandParser

  // ---------------------------------------------------------------- numbers

  function Figure(d: nat): (c: char)
    requires d < 10
    ensures Digit(c) && c as int - '0' as int == d
  {
    ('0' as int + d) as char
  }

  /** A number as a user types it. */
  function Decimal(n: nat): (r: string)
    ensures |r| > 0 && forall k :: 0 <= k < |r| ==> Digit(r[k])
  {
    if n < 10 then [Figure(n)] else Decimal(n / 10) + [Figure(n % 10)]
  }

  datatype Sign = Unsigned | Positive | Negative

  function Signed(sign: Sign, n: nat): int {
    var m: int := n;
    if sign == Negative then -m else m
  }

  function Prefix(sign: Sign): string {
    match sign
    case Unsigned => ""
    case Positive => "+"
    case Negative => "-"
  }

  lemma {:induction false} DigitsRead(s: string, i: nat, e: nat, n: nat)
    requires i <= e <= |s| && s[i..e] == Decimal(n)
    ensures (forall k :: i <= k < e ==> Digit(s[k])) && DigitsValue(s, i, e) == n
    decreases n
  {
    var d := Decimal(n);
    forall k | i <= k < e ensures Digit(s[k]) && s[k] == d[k - i] {
      assert s[k] == s[i..e][k - i];
    }
    if n >= 10 {
      assert d[..|d| - 1] == Decimal(n / 10);
      assert s[i..e - 1] == d[..|d| - 1];
      DigitsRead(s, i, e - 1, n / 10);
    } else {
      assert |d| == 1;
      assert DigitsValue(s, i, i) == 0;
    }
    assert s[e - 1] == Figure(n % 10);
  }

  lemma {:induction false} DigitsEndAt(s: string, i: nat, e: nat)
    requires i <= e <= |s| && (forall k :: i <= k < e ==> Digit(s[k])) && !Digit(At(s, e))
    ensures DigitsEnd(s, i) == e
    decreases e - i
  {
    if i < e {
      DigitsEndAt(s, i + 1, e);
    }
  }

  /** `s` has the numeral from `i` to `e`. */
  ghost predicate NumeralAt(s: string, i: nat, sign: Sign, n: nat, e: nat) {
    && i + |Prefix(sign)| <= e <= |s| && s[i..i + |Prefix(sign)|] == Prefix(sign)
    && s[i + |Prefix(sign)|..e] == Decimal(n) && !Digit(At(s, e))
  }

  lemma NumeralStarts(s: string, i: nat, sign: Sign, n: nat, e: nat)
    requires NumeralAt(s, i, sign, n, e)
    ensures SkipSpace(s, i) == i && (At(s, i) == '-' <==> sign == Negative) && (At(s, i) == '+' <==> sign == Positive)
  {
    var first := i + |Prefix(sign)|;
    assert first < e && Digit(Decimal(n)[0]) && s[first] == s[first..e][0];
    if sign != Unsigned { assert s[i] == s[i..first][0]; }
  }

  lemma NumeralRead(s: string, i: nat, sign: Sign, n: nat, e: nat)
    requires NumeralAt(s, i, sign, n, e)
    ensures Strtol(s, i) == if LONG_MIN <= Signed(sign, n) <= LONG_MAX then Some((Signed(sign, n), e)) else None
  {
    var first := i + |Prefix(sign)|;
    NumeralStarts(s, i, sign, n, e);
    DigitsRead(s, first, e, n);
    DigitsEndAt(s, first, e);
    assert first < e;
  }

  const WHITE_SPACE := " \t\r\n\U{000B}\U{000C}"

  lemma {:induction false} SpaceSkipped(s: string, i: nat, j: nat)
    requires i <= j <= |s| && (forall k :: i <= k < j ==> s[k] in WHITE_SPACE) && SkipSpace(s, j) == j
    ensures SkipSpace(s, i) == j
    decreases j - i
  {
    if i < j {
      SpaceSkipped(s, i + 1, j);
    }
  }

  lemma Slices(a: string, b: string, c: string, d: string)
    ensures var s := a + b + c + d;
            && |s| == |a| + |b| + |c| + |d|
            && s[|a|..|a| + |b|] == b && s[|a| + |b|..|a| + |b| + |c|] == c
            && At(s, |a| + |b| + |c|) == if d == "" then '\0' else d[0]
  {
  }

  lemma NumeralStands(s: string, lead: string, sign: Sign, n: nat, after: string)
    requires s == lead + Prefix(sign) + Decimal(n) + after && (after != "" ==> !Digit(after[0]))
    ensures NumeralAt(s, |lead|, sign, n, |lead| + |Prefix(sign)| + |Decimal(n)|)
  {
    Slices(lead, Prefix(sign), Decimal(n), after);
  }

  /** A decimal numeral, signed or not and behind white space or not, is read as the
    * number it denotes, up to the first character that is no digit; one that 64 bits
    * do not hold is not read. */
  lemma NumberRoundTrip(s: string, at: nat, i: nat, sign: Sign, n: nat, e: nat)
    requires NumeralAt(s, i, sign, n, e) && at <= i && forall k :: at <= k < i ==> s[k] in WHITE_SPACE
    ensures Strtol(s, at) == if LONG_MIN <= Signed(sign, n) <= LONG_MAX then Some((Signed(sign, n), e)) else None
  {
    NumeralStarts(s, i, sign, n, e);
    SpaceSkipped(s, at, i);
    NumeralRead(s, i, sign, n, e);
  }

  /** Where no digit follows white space and a sign, no number is read. */
  lemma NoNumber(s: string, at: nat, i: nat)
    requires at <= i <= |s| && forall k :: at <= k < i ==> s[k] in WHITE_SPACE
    requires i < |s| ==> s[i] !in WHITE_SPACE && !Digit(s[i]) && (s[i] in "+-" && i + 1 < |s| ==> !Digit(s[i + 1]))
    ensures Strtol(s, at) == None
  {
    SpaceSkipped(s, at, i);
  }

  // ---------------------------------------------------------------- tokens

  /** The text stands there, in whatever case. */
  predicate Says(s: string, i: nat, text: string) {
    i + |text| <= |s| && forall k :: 0 <= k < |text| ==> Folded(s[i + k]) == Folded(text[k])
  }

  lemma LiteralSays(s: string, i: nat, text: string)
    requires i <= |s|
    ensures LiteralAt(s, i, text) <==> Says(s, i, text)
  {
    if i + |text| <= |s| {
      assert forall k {:trigger s[i..i + |text|][k]} {:trigger s[i + k]} :: 0 <= k < |text| ==>
             s[i..i + |text|][k] == s[i + k];
    }
  }

  /** A literal fits exactly where its text stands, and takes just that. */
  lemma LiteralTaken(s: string, ctx: Context, text: string, state: nat, env: nat -> Outcome)
    requires ctx.walk <= |s| && NulFree(s) && |text| > 0 && state != INITIAL
    ensures Try(s, ctx, Token(Literal(text), None, Goto(state)), env) ==
            if Says(s, ctx.walk, text) then Handled(ctx.(walk := ctx.walk + |text|, state := state))
              else Passed(ctx.walk)
  {
    LiteralSays(s, ctx.walk, text);
  }

  /** A number goes onto the stack under its name. */
  lemma NumberTaken(s: string, ctx: Context, i: nat, sign: Sign, n: nat, e: nat, name: string, state: nat,
                    env: nat -> Outcome)
    requires NumeralAt(s, i, sign, n, e) && ctx.walk <= i && forall k :: ctx.walk <= k < i ==> s[k] in WHITE_SPACE
    requires LONG_MIN <= Signed(sign, n) <= LONG_MAX && NulFree(s) && |ctx.stack| < PLACES && state != INITIAL
    ensures Try(s, ctx, Token(Number, Some(name), Goto(state)), env) ==
            Handled(ctx.(walk := e, state := state, stack := ctx.stack + [Entry(name, Num(Signed(sign, n)))]))
  {
    NumberRoundTrip(s, ctx.walk, i, sign, n, e);
  }

  /** A quoted text goes onto the stack under its name, and the walk past the quote;
    * so does a bare word up to what ends it, and a string up to the end of its
    * command. */
  lemma QuotedTaken(before: string, x: string, after: string, ctx: Context, asWord: bool, name: string, state: nat,
                    env: nat -> Outcome)
    requires NulFree(before) && NulFree(x) && NulFree(after) && x != ""
    requires ctx.walk == |before| && |ctx.stack| < PLACES && state != INITIAL
    requires forall j :: 0 <= j < |ctx.stack| ==> ctx.stack[j].identifier != name
    ensures var s := before + "\"" + Escape(x) + "\"" + after;
            NulFree(s) && Try(s, ctx, Token(if asWord then Word else Str, Some(name), Goto(state)), env) ==
                          Handled(ctx.(walk := |before| + |Escape(x)| + 2, state := state,
                                       stack := ctx.stack + [Entry(name, Text(x))]))
  {
    QuotedRoundTrip(before, x, after, asWord);
    StringAdds(ctx.stack, name, x);
  }

  lemma BareTaken(before: string, x: string, after: string, ctx: Context, asWord: bool, name: string, state: nat,
                  env: nat -> Outcome)
    requires NulFree(before) && NulFree(x) && NulFree(after) && x != "" && x[0] != '"'
    requires forall k :: 0 <= k < |x| ==> x[k] != '\\' && !Ends(x[k], asWord)
    requires after != "" ==> Ends(after[0], asWord)
    requires ctx.walk == |before| && |ctx.stack| < PLACES && state != INITIAL
    requires forall j :: 0 <= j < |ctx.stack| ==> ctx.stack[j].identifier != name
    ensures var s := before + x + after;
            NulFree(s) && Try(s, ctx, Token(if asWord then Word else Str, Some(name), Goto(state)), env) ==
                          Handled(ctx.(walk := |before| + |x|, state := state,
                                       stack := ctx.stack + [Entry(name, Text(x))]))
  {
    BareRoundTrip(before, x, after, asWord);
    StringAdds(ctx.stack, name, x);
  }

  /** A literal the table names is kept as well, as the table spells it. */
  lemma LiteralKept(s: string, ctx: Context, text: string, name: string, state: nat, env: nat -> Outcome)
    requires ctx.walk <= |s| && NulFree(s) && |text| > 0 && state != INITIAL && Says(s, ctx.walk, text)
    requires |ctx.stack| < PLACES && forall j :: 0 <= j < |ctx.stack| ==> ctx.stack[j].identifier != name
    ensures Try(s, ctx, Token(Literal(text), Some(name), Goto(state)), env) ==
            Handled(ctx.(walk := ctx.walk + |text|, state := state, stack := ctx.stack + [Entry(name, Text(text))]))
  {
    LiteralSays(s, ctx.walk, text);
    StringAdds(ctx.stack, name, text);
  }

  /** The end of a command is a comma, a semicolon or the end of the line.  Only a
    * comma leaves the criteria standing. */
  lemma EndTaken(s: string, ctx: Context, state: nat, env: nat -> Outcome)
    requires ctx.walk <= |s| && NulFree(s) && state != INITIAL
    ensures var r, i := Try(s, ctx, Token(End, None, Goto(state)), env), ctx.walk;
            && (i < |s| && s[i] != ',' && s[i] != ';' ==> r == Passed(i))
            && (i < |s| && s[i] == ',' ==> r == Handled(ctx.(walk := i + 1, state := state)))
            && (i == |s| || s[i] == ';' ==>
                  r == Handled(ctx.(walk := i + 1, state := state, criteria := [], log := ctx.log + [Separated])))
  {
  }

  /** Of the tokens of a state the first that fits is taken. */
  lemma {:induction false} FirstFits(s: string, ctx: Context, tokens: seq<Token>, c: nat, k: nat, env: nat -> Outcome)
    requires ctx.walk <= |s| && NulFree(s) && c <= k < |tokens|
    requires forall j :: 0 <= j < |tokens| && tokens[j].kind.Literal? ==> |tokens[j].kind.text| > 0
    requires forall j :: c <= j < k ==> Try(s, ctx, tokens[j], env) == Passed(ctx.walk)
    requires !Try(s, ctx, tokens[k], env).Passed?
    ensures TryAll(s, ctx, tokens, c, env) == Try(s, ctx, tokens[k], env)
    decreases k - c
  {
    if c < k {
      assert ctx.(walk := ctx.walk) == ctx;
      FirstFits(s, ctx, tokens, c + 1, k, env);
    }
  }

  /** If none fits, the line is in error where it stands. */
  lemma {:induction false} NoneFits(s: string, ctx: Context, tokens: seq<Token>, c: nat, env: nat -> Outcome)
    requires ctx.walk <= |s| && NulFree(s) && c <= |tokens|
    requires forall j :: 0 <= j < |tokens| && tokens[j].kind.Literal? ==> |tokens[j].kind.text| > 0
    requires forall j :: c <= j < |tokens| ==> Try(s, ctx, tokens[j], env) == Passed(ctx.walk)
    ensures TryAll(s, ctx, tokens, c, env) == Passed(ctx.walk)
    decreases |tokens| - c
  {
    if c < |tokens| {
      assert ctx.(walk := ctx.walk) == ctx;
      NoneFits(s, ctx, tokens, c + 1, env);
    }
  }

  /** Then the walk is left at the first character that is no blank, with the stack
    * cleared and what was called so far kept. */
  lemma ErrorStands(s: string, ctx: Context, table: Table, env: nat -> Outcome, i: nat)
    requires NulFree(s) && Closed(table, env) && ctx.walk <= i <= |s| && ctx.state < |table|
    requires (forall k :: ctx.walk <= k < i ==> s[k] in " \t\r\n") && (i < |s| ==> s[i] !in " \t\r\n")
    requires forall j :: 0 <= j < |table[ctx.state]| ==>
               (table[ctx.state][j].kind.Literal? ==> |table[ctx.state][j].kind.text| > 0) &&
               Try(s, ctx.(walk := i), table[ctx.state][j], env) == Passed(i)
    ensures Run(s, ctx, table, env) == Rejected(ctx.(walk := i, stack := []))
  {
    assert SkipBlank(s, ctx.walk) == i;
    NoneFits(s, ctx.(walk := i), table[ctx.state], 0, env);
  }

  // ---------------------------------------------------------------- a whole command

  /** A word, a number and the end of the command. */
  function WordNumber(word: string, name: string, call: nat): Table {
    [[Token(Literal(word), None, Goto(1))], [Token(Number, Some(name), Goto(2))], [Token(End, None, Call(call))]]
  }

  lemma WordNumberClosed(word: string, name: string, call: nat, env: nat -> Outcome)
    requires |word| > 0 && forall k :: env(k).next < 3
    ensures Closed(WordNumber(word, name, call), env)
  {
  }

  lemma OneToken(s: string, ctx: Context, table: Table, env: nat -> Outcome, next: Context)
    requires NulFree(s) && Closed(table, env) && ctx.walk <= |s| && ctx.state < |table| && !Blank(At(s, ctx.walk))
    requires |table[ctx.state]| == 1
    requires var t := table[ctx.state][0];
             (t.kind.Literal? ==> |t.kind.text| > 0) && Try(s, ctx, t, env) == Handled(next)
    ensures next.walk <= |s| + 1 && next.state < |table| && Run(s, ctx, table, env) == Run(s, next, table, env)
  {
    LiteralsSound(table, env, ctx.state);
    assert ctx.(walk := SkipBlank(s, ctx.walk)) == ctx;
    HandledState(s, ctx, table, env);
  }

  lemma SkipOne(s: string, ctx: Context, table: Table, env: nat -> Outcome)
    requires NulFree(s) && Closed(table, env) && ctx.walk < |s| && ctx.state < |table|
    requires s[ctx.walk] == ' ' && !Blank(At(s, ctx.walk + 1))
    ensures Run(s, ctx, table, env) == Run(s, ctx.(walk := ctx.walk + 1), table, env)
  {
    LiteralsSound(table, env, ctx.state);
    assert SkipBlank(s, ctx.walk) == ctx.walk + 1 == SkipBlank(s, ctx.walk + 1);
    assert ctx.(walk := ctx.walk + 1).(walk := SkipBlank(s, ctx.walk + 1)) == ctx.(walk := SkipBlank(s, ctx.walk));
  }

  lemma WordTaken(s: string, typed: string, word: string, env: nat -> Outcome)
    requires NulFree(s) && |word| > 0 && SameText(typed, word) && |word| <= |s| && s[..|word|] == typed
    ensures Try(s, START, Token(Literal(word), None, Goto(1)), env) == Handled(START.(walk := |word|, state := 1))
  {
    assert forall k :: 0 <= k < |word| ==> s[k] == typed[k];
    LiteralTaken(s, START, word, 1, env);
  }

  lemma CommandEnds(s: string, ctx: Context, call: nat, env: nat -> Outcome)
    requires NulFree(s) && ctx.walk == |s|
    ensures Try(s, ctx, Token(End, None, Call(call)), env) ==
            var o := env(|ctx.log|);
            Handled(ctx.(walk := |s| + 1, state := o.next, stack := [], criteria := [], render := ctx.render ||
              o.needsRender,
                         log := ctx.log + [Called(call, ctx.stack, ctx.criteria, o.needsRender), Separated]))
  {
    assert ctx.log + [Called(call, ctx.stack, ctx.criteria, env(|ctx.log|).needsRender)] + [Separated] ==
           ctx.log + [Called(call, ctx.stack, ctx.criteria, env(|ctx.log|).needsRender), Separated];
  }

  lemma NumeralNulFree(sign: Sign, n: nat)
    ensures NulFree(Prefix(sign) + Decimal(n)) && !Blank((Prefix(sign) + Decimal(n))[0])
  {
    assert forall k :: 0 <= k < |Decimal(n)| ==> Digit(Decimal(n)[k]);
    if sign == Unsigned { assert (Prefix(sign) + Decimal(n))[0] == Decimal(n)[0]; }
  }

  /** What is left when the whole line has been read. */
  function Heard(s: string, call: nat, heard: seq<Entry>, o: Outcome): Context {
    Context(|s| + 1, o.next, [], [], o.needsRender, [Called(call, heard, [], o.needsRender), Separated])
  }

  lemma EndHeard(s: string, word: string, name: string, call: nat, heard: seq<Entry>, env: nat -> Outcome)
    requires NulFree(s) && Closed(WordNumber(word, name, call), env)
    ensures Run(s, Context(|s|, 2, heard, [], false, []), WordNumber(word, name, call), env) ==
            Accepted(Heard(s, call, heard, env(0)))
  {
    var c3 := Context(|s|, 2, heard, [], false, []);
    CommandEnds(s, c3, call, env);
    OneToken(s, c3, WordNumber(word, name, call), env, Heard(s, call, heard, env(0)));
  }

  lemma NumberFits(s: string, i: nat, sign: Sign, n: nat, name: string, env: nat -> Outcome)
    requires LONG_MIN <= Signed(sign, n) <= LONG_MAX && NulFree(s) && NumeralAt(s, i, sign, n, |s|)
    ensures Try(s, Context(i, 1, [], [], false, []), Token(Number, Some(name), Goto(2)), env) ==
            Handled(Context(|s|, 2, [Entry(name, Num(Signed(sign, n)))], [], false, []))
  {
    NumberTaken(s, Context(i, 1, [], [], false, []), i, sign, n, |s|, name, 2, env);
    assert [] + [Entry(name, Num(Signed(sign, n)))] == [Entry(name, Num(Signed(sign, n)))];
  }

  lemma NumberHeard(s: string, i: nat, word: string, sign: Sign, n: nat, name: string, call: nat, env: nat -> Outcome)
    requires LONG_MIN <= Signed(sign, n) <= LONG_MAX && Closed(WordNumber(word, name, call), env)
    requires NulFree(s) && NumeralAt(s, i, sign, n, |s|) && !Blank(At(s, i))
    ensures Run(s, Context(i, 1, [], [], false, []), WordNumber(word, name, call), env) ==
            Accepted(Heard(s, call, [Entry(name, Num(Signed(sign, n)))], env(0)))
  {
    var c2, heard := Context(i, 1, [], [], false, []), [Entry(name, Num(Signed(sign, n)))];
    NumberFits(s, i, sign, n, name, env);
    OneToken(s, c2, WordNumber(word, name, call), env, Context(|s|, 2, heard, [], false, []));
    EndHeard(s, word, name, call, heard, env);
  }

  lemma WordHeard(s: string, typed: string, word: string, name: string, call: nat, env: nat -> Outcome)
    requires NulFree(s) && |word| > 0 && SameText(typed, word) && |word| + 1 < |s| && s[..|word|] == typed
    requires !Blank(s[0]) && s[|word|] == ' ' && !Blank(s[|word| + 1]) && Closed(WordNumber(word, name, call), env)
    ensures Run(s, START, WordNumber(word, name, call), env) ==
            Run(s, Context(|word| + 1, 1, [], [], false, []), WordNumber(word, name, call), env)
  {
    var c1 := Context(|word|, 1, [], [], false, []);
    WordTaken(s, typed, word, env);
    OneToken(s, START, WordNumber(word, name, call), env, c1);
    SkipOne(s, c1, WordNumber(word, name, call), env);
  }

  lemma LineParts(typed: string, sign: Sign, n: nat)
    requires NulFree(typed)
    ensures var s := typed + " " + Prefix(sign) + Decimal(n);
            && NulFree(s) && |typed| + 1 < |s| && s[..|typed|] == typed && s[|typed|] == ' ' && !Blank(s[|typed| + 1])
  {
    var s, numeral := typed + " " + Prefix(sign) + Decimal(n), Prefix(sign) + Decimal(n);
    NumeralNulFree(sign, n);
    assert s == (typed + " ") + numeral && s[|typed| + 1] == numeral[0];
  }

  lemma LineNumeral(lead: string, sign: Sign, n: nat)
    ensures var s := lead + Prefix(sign) + Decimal(n); NumeralAt(s, |lead|, sign, n, |s|)
  {
    var s := lead + Prefix(sign) + Decimal(n);
    assert s == s + "";
    NumeralStands(s, lead, sign, n, "");
  }

  /** A line of a word, in any case, and a number calls the command once, with that
    * number under the name the table gives it, and is consumed to its end. */
  lemma CommandHeard(typed: string, word: string, sign: Sign, n: nat, name: string, call: nat, env: nat -> Outcome)
    requires |word| > 0 && SameText(typed, word) && NulFree(typed) && !Blank(typed[0])
    requires LONG_MIN <= Signed(sign, n) <= LONG_MAX && forall k :: env(k).next < 3
    ensures var s, table := typed + " " + Prefix(sign) + Decimal(n), WordNumber(word, name, call);
            && NulFree(s) && Closed(table, env)
            && var r := Run(s, START, table, env);
               r.Accepted? && r.ctx.walk == |s| + 1
               && r.ctx.log == [Called(call, [Entry(name, Num(Signed(sign, n)))], [], env(0).needsRender), Separated]
  {
    var s := typed + " " + Prefix(sign) + Decimal(n);
    LineParts(typed, sign, n);
    LineNumeral(typed + " ", sign, n);
    WordNumberClosed(word, name, call, env);
    WordHeard(s, typed, word, name, call, env);
    NumberHeard(s, |word| + 1, word, sign, n, name, call, env);
  }
}
