/** The command parser: a state machine over an arbitrary token table. */
module CommandParser {
  import opened Ascii
  import opened Order
  import opened ParseString
  import opened ParserStack

  datatype Kind = Literal(text: string) | Number | Str | Word | End

  /** A call decides the state that follows it. */
  datatype Next = Goto(state: nat) | Call(id: nat)

  datatype Token = Token(kind: Kind, identifier: Option<string>, next: Next)

  type Table = seq<seq<Token>>

  const INITIAL := 0

  /** What a called command does to the criteria of the running command. */
  datatype Effect = Keep | Clear | Add

  datatype Outcome = Outcome(next: nat, needsRender: bool, effect: Effect)

  /** What happened so far.  A criterion is named by the position in this log of
    * the call that added it. */
  datatype Event =
    | Called(id: nat, arguments: seq<Entry>, criteria: seq<nat>, needsRender: bool)
    | Separated

  datatype Context = Context(walk: nat, state: nat, stack: seq<Entry>, criteria: seq<nat>, render: bool,
    log: seq<Event>)

  predicate SoundToken(t: Token, states: nat) {
    && (t.next.Goto? ==> t.next.state < states)
    && (t.kind.Literal? ==> |t.kind.text| > 0)
  }

  /** No state leads out of the table, and literals have at least one character. */
  ghost predicate Closed(table: Table, env: nat -> Outcome) {
    && |table| > 0
    && (forall i, c {:trigger table[i][c]} :: 0 <= i < |table| && 0 <= c < |table[i]| ==>
       SoundToken(table[i][c], |table|))
    && (forall k :: env(k).next < |table|)
  }

  lemma LiteralsSound(table: Table, env: nat -> Outcome, state: nat)
    requires Closed(table, env) && state < |table|
    ensures forall k :: 0 <= k < |table[state]| && table[state][k].kind.Literal? ==> |table[state][k].kind.text| > 0
  {
    forall k | 0 <= k < |table[state]| && table[state][k].kind.Literal? ensures |table[state][k].kind.text| > 0 {
      assert SoundToken(table[state][k], |table|);
    }
  }

  // ---------------------------------------------------------------- lexing

  predicate Blank(c: char) {
    c == ' ' || c == '\t' || c == '\r' || c == '\n'
  }

  function SkipBlank(s: string, i: nat): (j: nat)
    requires i <= |s|
    ensures i <= j <= |s| && !Blank(At(s, j))
    ensures forall k :: i <= k < j ==> Blank(s[k])
    decreases |s| - i
  {
    if Blank(At(s, i)) then SkipBlank(s, i + 1) else i
  }

  predicate LiteralAt(s: string, i: nat, text: string)
    requires i <= |s|
  {
    i + |text| <= |s| && SameText(s[i..i + |text|], text)
  }

  /** isspace. */
  predicate Space(c: char) {
    Blank(c) || c == '\U{000B}' || c == '\U{000C}'
  }

  function SkipSpace(s: string, i: nat): (j: nat)
    requires i <= |s|
    ensures i <= j <= |s|
    decreases |s| - i
  {
    if Space(At(s, i)) then SkipSpace(s, i + 1) else i
  }

  predicate Digit(c: char) {
    '0' <= c <= '9'
  }

  function DigitsEnd(s: string, i: nat): (e: nat)
    requires i <= |s|
    ensures i <= e <= |s| && !Digit(At(s, e))
    ensures forall k :: i <= k < e ==> Digit(s[k])
    decreases |s| - i
  {
    if Digit(At(s, i)) then DigitsEnd(s, i + 1) else i
  }

  function DigitsValue(s: string, i: nat, e: nat): nat
    requires i <= e <= |s| && forall k :: i <= k < e ==> Digit(s[k])
    decreases e - i
  {
    if i == e then 0
    else
      assert Digit(s[e - 1]);
      10 * DigitsValue(s, i, e - 1) + (s[e - 1] as int - '0' as int)
  }

  const LONG_MIN := -0x8000_0000_0000_0000

  const LONG_MAX := 0x7FFF_FFFF_FFFF_FFFF

  /** strtol in base ten, as far as it is accepted: the number and the position
    * after it, if there are digits and the number fits 64 bits. */
  function Strtol(s: string, i: nat): (r: Option<(int, nat)>)
    requires i <= |s|
    ensures r.Some? ==> i < r.value.1 <= |s| && LONG_MIN <= r.value.0 <= LONG_MAX
  {
    var sign := SkipSpace(s, i);
    var first := if At(s, sign) == '-' || At(s, sign) == '+' then sign + 1 else sign;
    var e := DigitsEnd(s, first);
    var magnitude: int := DigitsValue(s, first, e);
    var num: int := if At(s, sign) == '-' then -magnitude else magnitude;
    if e == first || num < LONG_MIN || num > LONG_MAX then None else Some((num, e))
  }

  // ---------------------------------------------------------------- one token

  function Affected(criteria: seq<nat>, effect: Effect, k: nat): seq<nat> {
    match effect
    case Keep => criteria
    case Clear => []
    case Add => criteria + [k]
  }

  /** next_state. */
  function Advanced(ctx: Context, next: Next, env: nat -> Outcome): Context {
    match next
    case Goto(state) =>
      ctx.(state := state, stack := if state == INITIAL then [] else ctx.stack)
    case Call(id) =>
      var o := env(|ctx.log|);
      ctx.(state := o.next,
        render := ctx.render || o.needsRender,
        stack := [],
        criteria := Affected(ctx.criteria, o.effect, |ctx.log|),
        log := ctx.log + [Called(id, ctx.stack, ctx.criteria, o.needsRender)])
  }

  datatype Step = Handled(ctx: Context) | Passed(walk: nat) | GaveUp

  /** The end of a command: criteria last until a semicolon or the terminator. */
  function Ended(ctx: Context, c: char): Context {
    (if c == ',' then ctx else ctx.(criteria := [], log := ctx.log + [Separated])).(walk := ctx.walk + 1)
  }

  /** Push what was read, then move on. */
  function Accept(ctx: Context, stack: Option<seq<Entry>>, walk: nat, t: Token, env: nat -> Outcome): Step {
    if stack.None? then GaveUp else Handled(Advanced(ctx.(stack := stack.value, walk := walk), t.next, env))
  }

  function WithString(stack: seq<Entry>, identifier: Option<string>, str: string): Option<seq<Entry>> {
    if identifier.None? then Some(stack) else PushedString(stack, identifier.value, str)
  }

  function WithNumber(stack: seq<Entry>, identifier: Option<string>, num: int): Option<seq<Entry>> {
    if identifier.None? then Some(stack) else PushedNumber(stack, identifier.value, num)
  }

  /** The position after a string: past the closing quote, if it stands there. */
  function AfterString(s: string, i: nat, asWord: bool): (w: nat)
    requires i <= |s|
    ensures i <= w <= |s|
  {
    var e := ParseString.End(s, i, asWord);
    if At(s, e) == '"' then e + 1 else e
  }

  function Try(s: string, ctx: Context, t: Token, env: nat -> Outcome): (r: Step)
    requires ctx.walk <= |s| && NulFree(s) && (t.kind.Literal? ==> |t.kind.text| > 0)
    ensures r.Handled? ==> ctx.walk < r.ctx.walk <= |s| + 1
    ensures r.Handled? && r.ctx.walk == |s| + 1 ==> t.kind == End
    ensures r.Passed? ==> ctx.walk <= r.walk <= |s|
  {
    match t.kind
    case Literal(text) =>
      if LiteralAt(s, ctx.walk, text) then
        Accept(ctx, WithString(ctx.stack, t.identifier, text), ctx.walk + |text|, t, env)
      else Passed(ctx.walk)
    case Number =>
      var n := Strtol(s, ctx.walk);
      if n.Some? then Accept(ctx, WithNumber(ctx.stack, t.identifier, n.value.0), n.value.1, t, env)
      else Passed(ctx.walk)
    case End =>
      var c := At(s, ctx.walk);
      if c == '\0' || c == ',' || c == ';' then Handled(Ended(Advanced(ctx, t.next, env), c))
      else Passed(ctx.walk)
    case _ =>
      var str := Reading(s, ctx.walk, t.kind == Word);
      if str.Some? then
        Accept(ctx, WithString(ctx.stack, t.identifier, str.value), AfterString(s, ctx.walk, t.kind == Word), t, env)
      else Passed(ParseString.End(s, ctx.walk, t.kind == Word))
  }

  /** The tokens of a state in order, the first that fits; what a failed string
    * has consumed is not given back. */
  function TryAll(s: string, ctx: Context, tokens: seq<Token>, c: nat, env: nat -> Outcome): (r: Step)
    requires ctx.walk <= |s| && NulFree(s) && c <= |tokens|
    requires forall k :: c <= k < |tokens| && tokens[k].kind.Literal? ==> |tokens[k].kind.text| > 0
    ensures r.Handled? ==> ctx.walk < r.ctx.walk <= |s| + 1
    ensures r.Passed? ==> ctx.walk <= r.walk <= |s|
    decreases |tokens| - c
  {
    if c == |tokens| then Passed(ctx.walk)
    else
      var r := Try(s, ctx, tokens[c], env);
      if r.Passed? then TryAll(s, ctx.(walk := r.walk), tokens, c + 1, env) else r
  }

  // ---------------------------------------------------------------- the whole command

  datatype Result = Accepted(ctx: Context) | Rejected(ctx: Context) | Aborted

  const START := Context(0, INITIAL, [], [], false, [])

  lemma {:induction false} HandledStateFrom(s: string, ctx: Context, table: Table, env: nat -> Outcome,
                                            tokens: seq<Token>, c: nat)
    requires NulFree(s) && Closed(table, env) && ctx.walk <= |s| && tokens in table && c <= |tokens|
    ensures var r := TryAll(s, ctx, tokens, c, env); r.Handled? ==> r.ctx.state < |table|
    decreases |tokens| - c
  {
    if c < |tokens| {
      var i :| 0 <= i < |table| && table[i] == tokens;
      assert SoundToken(table[i][c], |table|);
      var r := Try(s, ctx, tokens[c], env);
      if r.Passed? {
        HandledStateFrom(s, ctx.(walk := r.walk), table, env, tokens, c + 1);
      }
    }
  }

  lemma {:induction false} HandledState(s: string, ctx: Context, table: Table, env: nat -> Outcome)
    requires NulFree(s) && Closed(table, env) && ctx.walk <= |s| && ctx.state < |table|
    ensures var r := TryAll(s, ctx, table[ctx.state], 0, env); r.Handled? ==> r.ctx.state < |table|
  {
    HandledStateFrom(s, ctx, table, env, table[ctx.state], 0);
  }

  /** parse_command from a context on: every round either takes a token further
    * or reports an error where it stands. */
  function Run(s: string, ctx: Context, table: Table, env: nat -> Outcome): (r: Result)
    requires NulFree(s) && Closed(table, env) && ctx.walk <= |s| + 1 && ctx.state < |table|
    decreases |s| + 1 - ctx.walk
  {
    if ctx.walk > |s| then Accepted(ctx)
    else
      var at := ctx.(walk := SkipBlank(s, ctx.walk));
      var step := TryAll(s, at, table[ctx.state], 0, env);
      match step
      case GaveUp => Aborted
      case Passed(walk) => Rejected(at.(walk := walk, stack := []))
      case Handled(next) =>
        HandledState(s, at, table, env);
        Run(s, next, table, env)
  }
}
