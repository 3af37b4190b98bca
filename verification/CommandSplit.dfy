/** Commands separated by a semicolon do not influence each other's parsing. */
module CommandSplit {
  import opened Ascii
  import opened ParseString
  import opened CommandParser

  /** A first command without quotes, and a line that goes on after it. */
  ghost predicate Splits(a: string, s: string) {
    && NulFree(a) && NulFree(s) && '"' !in a
    && |a| < |s| && s[..|a|] == a && s[|a|] == ';'
  }

  ghost predicate NoSemicolons(table: Table) {
    forall i, c {:trigger table[i][c]} :: 0 <= i < |table| && 0 <= c < |table[i]| && table[i][c].kind.Literal? ==>
      ';' !in table[i][c].kind.text
  }

  lemma SameAt(a: string, s: string, i: nat)
    requires Splits(a, s) && i <= |a|
    ensures i < |a| ==> At(s, i) == At(a, i) == a[i]
    ensures i == |a| ==> At(s, i) == ';' && At(a, i) == '\0'
    ensures At(s, i) != '"' && At(a, i) != '"'
  {
    if i < |a| { assert s[..|a|][i] == s[i]; }
  }

  lemma {:induction false} SameSkip(a: string, s: string, i: nat)
    requires Splits(a, s) && i <= |a|
    ensures SkipBlank(s, i) == SkipBlank(a, i)
    decreases |a| - i
  {
    SameAt(a, s, i);
    if Blank(At(a, i)) { SameSkip(a, s, i + 1); }
  }

  lemma {:induction false} SameSpace(a: string, s: string, i: nat)
    requires Splits(a, s) && i <= |a|
    ensures SkipSpace(s, i) == SkipSpace(a, i)
    decreases |a| - i
  {
    SameAt(a, s, i);
    if Space(At(a, i)) { SameSpace(a, s, i + 1); }
  }

  lemma {:induction false} SameDigits(a: string, s: string, i: nat)
    requires Splits(a, s) && i <= |a|
    ensures DigitsEnd(s, i) == DigitsEnd(a, i)
    decreases |a| - i
  {
    SameAt(a, s, i);
    if Digit(At(a, i)) { SameDigits(a, s, i + 1); }
  }

  lemma {:induction false} SameValue(a: string, s: string, i: nat, e: nat)
    requires Splits(a, s) && i <= e <= |a|
    requires (forall k :: i <= k < e ==> Digit(a[k])) && (forall k :: i <= k < e ==> Digit(s[k]))
    ensures DigitsValue(s, i, e) == DigitsValue(a, i, e)
    decreases e - i
  {
    if i < e {
      SameAt(a, s, e - 1);
      SameValue(a, s, i, e - 1);
    }
  }

  lemma SameNumber(a: string, s: string, i: nat)
    requires Splits(a, s) && i <= |a|
    ensures Strtol(s, i) == Strtol(a, i)
  {
    SameSpace(a, s, i);
    var sign := SkipSpace(a, i);
    SameAt(a, s, sign);
    var first := if At(a, sign) == '-' || At(a, sign) == '+' then sign + 1 else sign;
    SameDigits(a, s, first);
    SameValue(a, s, first, DigitsEnd(a, first));
  }

  lemma OnlySemicolon(c: char)
    ensures Folded(c) == Folded(';') <==> c == ';'
  {
  }

  lemma SameLiteral(a: string, s: string, i: nat, text: string)
    requires Splits(a, s) && i <= |a| && ';' !in text
    ensures LiteralAt(s, i, text) == LiteralAt(a, i, text)
  {
    var n := i + |text|;
    if n <= |a| {
      forall k | i <= k < n ensures s[k] == a[k] {
        SameAt(a, s, k);
      }
      assert s[i..n] == a[i..n];
    } else if n <= |s| && SameText(s[i..n], text) {
      var k := |a| - i;
      assert s[i..n][k] == s[i + k] == ';';
      assert Folded(s[i..n][k]) == Folded(text[k]);
      assert text[k] in text;
      OnlySemicolon(text[k]);
      assert false;
    }
  }

  lemma {:induction false} SameBareEnd(a: string, s: string, i: nat, asWord: bool)
    requires Splits(a, s) && i <= |a|
    ensures BareEnd(s, i, asWord) == BareEnd(a, i, asWord)
    decreases |a| - i
  {
    SameAt(a, s, i);
    if !Delimiter(At(a, i), asWord) { SameBareEnd(a, s, i + 1, asWord); }
  }

  lemma {:induction false} SameDecoded(a: string, s: string, i: nat, e: nat)
    requires Splits(a, s) && i <= e <= |a| && Lands(a, i, e) && Lands(s, i, e)
    ensures Decoded(s, i, e) == Decoded(a, i, e)
    decreases e - i
  {
    if i < e {
      SameAt(a, s, i);
      SameAt(a, s, i + 1);
      assert Escapes(s, i) == Escapes(a, i);
      if Escapes(a, i) {
        assert Lands(a, i + 2, e) && Lands(s, i + 2, e);
        SameDecoded(a, s, i + 2, e);
      } else {
        SameDecoded(a, s, i + 1, e);
      }
    }
  }

  lemma SameReading(a: string, s: string, i: nat, asWord: bool)
    requires Splits(a, s) && i <= |a|
    ensures Reading(s, i, asWord) == Reading(a, i, asWord)
    ensures ParseString.End(s, i, asWord) == ParseString.End(a, i, asWord)
    ensures AfterString(s, i, asWord) == AfterString(a, i, asWord)
  {
    SameAt(a, s, i);
    SameBareEnd(a, s, i, asWord);
    var e := BareEnd(a, i, asWord);
    SameAt(a, s, e);
    ScanLands(a, i, asWord);
    ScanLands(s, i, asWord);
    SameDecoded(a, s, i, e);
  }

  lemma SameTry(a: string, s: string, ctx: Context, t: Token, env: nat -> Outcome)
    requires Splits(a, s) && ctx.walk <= |a|
    requires t.kind.Literal? ==> |t.kind.text| > 0 && ';' !in t.kind.text
    ensures Try(s, ctx, t, env) == Try(a, ctx, t, env)
  {
    match t.kind {
      case Literal(text) => SameLiteral(a, s, ctx.walk, text);
      case Number => SameNumber(a, s, ctx.walk);
      case End => SameAt(a, s, ctx.walk);
      case Str => SameReading(a, s, ctx.walk, false);
      case Word => SameReading(a, s, ctx.walk, true);
    }
  }

  lemma {:induction false} SameTryAll(a: string, s: string, ctx: Context, tokens: seq<Token>, c: nat,
                                      env: nat -> Outcome)
    requires Splits(a, s) && ctx.walk <= |a| && c <= |tokens|
    requires forall k :: 0 <= k < |tokens| && tokens[k].kind.Literal? ==> |tokens[k].kind.text| > 0
    requires forall k :: 0 <= k < |tokens| && tokens[k].kind.Literal? ==> ';' !in tokens[k].kind.text
    ensures TryAll(s, ctx, tokens, c, env) == TryAll(a, ctx, tokens, c, env)
    decreases |tokens| - c
  {
    if c < |tokens| {
      SameTry(a, s, ctx, tokens[c], env);
      var r := Try(a, ctx, tokens[c], env);
      if r.Passed? {
        SameTryAll(a, s, ctx.(walk := r.walk), tokens, c + 1, env);
      }
    }
  }

  /** Up to the semicolon the line is parsed like the first command alone. */
  lemma {:induction false} RunSplits(a: string, s: string, ctx: Context, table: Table, env: nat -> Outcome)
    requires Splits(a, s) && Closed(table, env) && NoSemicolons(table)
    requires ctx.walk <= |a| + 1 && ctx.state < |table|
    ensures var r := Run(a, ctx, table, env);
            if r.Accepted? then r.ctx.state < |table| && r.ctx.walk == |a| + 1 &&
              Run(s, ctx, table, env) == Run(s, r.ctx, table, env)
            else Run(s, ctx, table, env) == r
    decreases |a| + 1 - ctx.walk
  {
    if ctx.walk <= |a| {
      SameSkip(a, s, ctx.walk);
      var at := ctx.(walk := SkipBlank(a, ctx.walk));
      LiteralsSound(table, env, ctx.state);
      SameTryAll(a, s, at, table[ctx.state], 0, env);
      var step := TryAll(a, at, table[ctx.state], 0, env);
      if step.Handled? {
        HandledState(a, at, table, env);
        RunSplits(a, s, step.ctx, table, env);
      }
    }
  }

  /** What a handled end of command leaves. */
  lemma {:induction false} EndLeaves(s: string, ctx: Context, tokens: seq<Token>, c: nat, env: nat -> Outcome)
    requires ctx.walk <= |s| && NulFree(s) && c <= |tokens|
    requires forall k :: c <= k < |tokens| && tokens[k].kind.Literal? ==> |tokens[k].kind.text| > 0
    ensures var r := TryAll(s, ctx, tokens, c, env);
            r.Handled? && r.ctx.walk == |s| + 1 ==>
              r.ctx.criteria == [] && (r.ctx.state == INITIAL ==> r.ctx.stack == [])
    decreases |tokens| - c
  {
    if c < |tokens| {
      var r := Try(s, ctx, tokens[c], env);
      if r.Passed? { EndLeaves(s, ctx.(walk := r.walk), tokens, c + 1, env); }
    }
  }

  lemma {:induction false} AcceptedLeaves(s: string, ctx: Context, table: Table, env: nat -> Outcome)
    requires NulFree(s) && Closed(table, env) && ctx.walk <= |s| && ctx.state < |table|
    ensures var r := Run(s, ctx, table, env);
            r.Accepted? ==>
              r.ctx.walk == |s| + 1 && r.ctx.criteria == [] && (r.ctx.state == INITIAL ==> r.ctx.stack == [])
    decreases |s| + 1 - ctx.walk
  {
    var at := ctx.(walk := SkipBlank(s, ctx.walk));
    LiteralsSound(table, env, ctx.state);
    var step := TryAll(s, at, table[ctx.state], 0, env);
    EndLeaves(s, at, table[ctx.state], 0, env);
    if step.Handled? && step.ctx.walk <= |s| {
      HandledState(s, at, table, env);
      AcceptedLeaves(s, step.ctx, table, env);
    }
  }

  /** A command that is accepted on its own and ends in the initial state leaves
    * nothing behind but its effects: what follows its semicolon is parsed from a
    * fresh start, with no criteria and no arguments.  An error in it is the same
    * error, and the rest of the line is not looked at. */
  lemma SemicolonStartsAfresh(a: string, b: string, table: Table, env: nat -> Outcome)
    requires NulFree(a) && NulFree(b) && '"' !in a && Closed(table, env) && NoSemicolons(table)
    ensures var s, first := a + ";" + b, Run(a, START, table, env);
            && NulFree(s)
            && (!first.Accepted? ==> Run(s, START, table, env) == first)
            && (first.Accepted? && first.ctx.state == INITIAL ==>
                  Run(s, START, table, env) ==
                    Run(s, START.(walk := |a| + 1, render := first.ctx.render, log := first.ctx.log), table, env))
  {
    var s := a + ";" + b;
    assert s[..|a|] == a;
    RunSplits(a, s, START, table, env);
    AcceptedLeaves(a, START, table, env);
    var first := Run(a, START, table, env);
    if first.Accepted? && first.ctx.state == INITIAL {
      assert first.ctx == START.(walk := |a| + 1, render := first.ctx.render, log := first.ctx.log);
    }
  }
}
