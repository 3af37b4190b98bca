/** What holds of every command line, token table and behaviour of the commands. */
module CommandRuns {
  import opened Order
  import opened ParseString
  import opened ParserStack
  import opened CommandParser

  /** The call at x added a criterion, and nothing since has ended the command or
    * cleared the criteria. */
  ghost predicate Standing(log: seq<Event>, env: nat -> Outcome, x: nat) {
    && x < |log| && log[x].Called? && env(x).effect == Add
    && forall j {:trigger log[j]} :: x < j < |log| ==> log[j].Called? && env(j).effect != Clear
  }

  ghost predicate Exactly(criteria: seq<nat>, log: seq<Event>, env: nat -> Outcome) {
    forall x :: x in criteria <==> Standing(log, env, x)
  }

  /** A call saw the criteria standing when it was made, and at most ten arguments. */
  ghost predicate SawExactly(log: seq<Event>, env: nat -> Outcome, k: nat)
    requires k < |log|
  {
    log[k].Called? ==> Exactly(log[k].criteria, log[..k], env) && |log[k].arguments| <= PLACES
  }

  predicate Rendering(e: Event) {
    e.Called? && e.needsRender
  }

  ghost predicate Good(ctx: Context, env: nat -> Outcome) {
    && Exactly(ctx.criteria, ctx.log, env)
    && |ctx.stack| <= PLACES
    && (forall k :: 0 <= k < |ctx.log| ==> SawExactly(ctx.log, env, k))
    && (ctx.render <==> exists k :: 0 <= k < |ctx.log| && Rendering(ctx.log[k]))
  }

  lemma StandingAfter(log: seq<Event>, env: nat -> Outcome, e: Event, x: nat)
    ensures Standing(log + [e], env, x) <==>
              if x == |log| then e.Called? && env(x).effect == Add
              else Standing(log, env, x) && e.Called? && env(|log|).effect != Clear
  {
    var after := log + [e];
    assert after[|log|] == e;
    if x < |log| {
      assert after[x] == log[x];
      if Standing(after, env, x) {
        assert after[|log|].Called? && env(|log|).effect != Clear;
        forall j | x < j < |log| ensures log[j].Called? && env(j).effect != Clear {
          assert after[j] == log[j] && after[j].Called? && env(j).effect != Clear;
        }
      }
      if Standing(log, env, x) && e.Called? && env(|log|).effect != Clear {
        forall j | x < j < |after| ensures after[j].Called? && env(j).effect != Clear {
          if j < |log| { assert after[j] == log[j] && log[j].Called?; }
        }
      }
    }
  }

  lemma GrownSaw(log: seq<Event>, env: nat -> Outcome, e: Event)
    requires forall k :: 0 <= k < |log| ==> SawExactly(log, env, k)
    requires e.Called? ==> Exactly(e.criteria, log, env) && |e.arguments| <= PLACES
    ensures forall k :: 0 <= k < |log + [e]| ==> SawExactly(log + [e], env, k)
  {
    var after := log + [e];
    forall k | 0 <= k < |after| ensures SawExactly(after, env, k) {
      if k < |log| {
        assert SawExactly(log, env, k);
        assert after[..k] == log[..k] && after[k] == log[k];
      } else {
        assert after[..k] == log;
      }
    }
  }

  lemma GrownRender(log: seq<Event>, e: Event)
    ensures (exists k :: 0 <= k < |log + [e]| && Rendering((log + [e])[k])) <==>
              (exists k :: 0 <= k < |log| && Rendering(log[k])) || Rendering(e)
  {
    var after := log + [e];
    assert after[|log|] == e;
    if k :| 0 <= k < |log| && Rendering(log[k]) {
      assert after[k] == log[k];
    }
    if k :| 0 <= k < |after| && Rendering(after[k]) {
      if k < |log| { assert log[k] == after[k]; }
    }
  }

  lemma AffectedExactly(criteria: seq<nat>, log: seq<Event>, env: nat -> Outcome, e: Event)
    requires Exactly(criteria, log, env) && e.Called?
    ensures Exactly(Affected(criteria, env(|log|).effect, |log|), log + [e], env)
  {
    forall x ensures x in Affected(criteria, env(|log|).effect, |log|) <==> Standing(log + [e], env, x) {
      StandingAfter(log, env, e, x);
      assert x in criteria <==> Standing(log, env, x);
    }
  }

  lemma AdvancedGood(ctx: Context, next: Next, env: nat -> Outcome)
    requires Good(ctx, env)
    ensures Good(Advanced(ctx, next, env), env)
  {
    if next.Call? {
      var e := Called(next.id, ctx.stack, ctx.criteria, env(|ctx.log|).needsRender);
      AffectedExactly(ctx.criteria, ctx.log, env, e);
      GrownSaw(ctx.log, env, e);
      GrownRender(ctx.log, e);
    }
  }

  lemma EndedGood(ctx: Context, c: char, env: nat -> Outcome)
    requires Good(ctx, env)
    ensures Good(Ended(ctx, c), env)
  {
    if c != ',' {
      GrownSaw(ctx.log, env, Separated);
      GrownRender(ctx.log, Separated);
      forall x: nat ensures !Standing(ctx.log + [Separated], env, x) {
        StandingAfter(ctx.log, env, Separated, x);
      }
    }
  }

  lemma AcceptGood(ctx: Context, stack: Option<seq<Entry>>, walk: nat, t: Token, env: nat -> Outcome)
    requires Good(ctx, env) && stack.Some? && |stack.value| <= PLACES
    ensures Good(Accept(ctx, stack, walk, t, env).ctx, env)
  {
    AdvancedGood(ctx.(stack := stack.value, walk := walk), t.next, env);
  }

  lemma Pushed(s: string, ctx: Context, t: Token, env: nat -> Outcome)
    requires ctx.walk <= |s| && NulFree(s) && (t.kind.Literal? ==> |t.kind.text| > 0)
    requires Good(ctx, env) && t.kind != CommandParser.End && Try(s, ctx, t, env).Handled?
    ensures Good(Try(s, ctx, t, env).ctx, env)
  {
    if t.kind.Literal? {
      AcceptGood(ctx, WithString(ctx.stack, t.identifier, t.kind.text), ctx.walk + |t.kind.text|, t, env);
    } else if t.kind.Number? {
      var n := Strtol(s, ctx.walk);
      AcceptGood(ctx, WithNumber(ctx.stack, t.identifier, n.value.0), n.value.1, t, env);
    } else {
      var str := Reading(s, ctx.walk, t.kind == Word);
      AcceptGood(ctx, WithString(ctx.stack, t.identifier, str.value), AfterString(s, ctx.walk, t.kind == Word), t, env);
    }
  }

  lemma TryGood(s: string, ctx: Context, t: Token, env: nat -> Outcome)
    requires ctx.walk <= |s| && NulFree(s) && (t.kind.Literal? ==> |t.kind.text| > 0)
    requires Good(ctx, env)
    ensures var r := Try(s, ctx, t, env); r.Handled? ==> Good(r.ctx, env)
  {
    var r := Try(s, ctx, t, env);
    if r.Handled? {
      if t.kind == CommandParser.End {
        AdvancedGood(ctx, t.next, env);
        EndedGood(Advanced(ctx, t.next, env), At(s, ctx.walk), env);
      } else {
        Pushed(s, ctx, t, env);
      }
    }
  }

  lemma {:induction false} TryAllGood(s: string, ctx: Context, tokens: seq<Token>, c: nat, env: nat -> Outcome)
    requires ctx.walk <= |s| && NulFree(s) && c <= |tokens| && Good(ctx, env)
    requires forall k :: c <= k < |tokens| && tokens[k].kind.Literal? ==> |tokens[k].kind.text| > 0
    ensures var r := TryAll(s, ctx, tokens, c, env); r.Handled? ==> Good(r.ctx, env)
    decreases |tokens| - c
  {
    if c < |tokens| {
      TryGood(s, ctx, tokens[c], env);
      var r := Try(s, ctx, tokens[c], env);
      if r.Passed? {
        assert Good(ctx.(walk := r.walk), env);
        TryAllGood(s, ctx.(walk := r.walk), tokens, c + 1, env);
      }
    }
  }

  ghost predicate Told(s: string, r: Result, env: nat -> Outcome) {
    match r
    case Aborted => true
    case Accepted(ctx) => Good(ctx, env) && ctx.walk == |s| + 1
    case Rejected(ctx) => Good(ctx, env) && ctx.walk <= |s|
  }

  lemma {:induction false} RunTold(s: string, ctx: Context, table: Table, env: nat -> Outcome)
    requires NulFree(s) && Closed(table, env) && ctx.walk <= |s| + 1 && ctx.state < |table| && Good(ctx, env)
    ensures Told(s, Run(s, ctx, table, env), env)
    decreases |s| + 1 - ctx.walk
  {
    if ctx.walk <= |s| {
      var at := ctx.(walk := SkipBlank(s, ctx.walk));
      assert Good(at, env);
      LiteralsSound(table, env, ctx.state);
      TryAllGood(s, at, table[ctx.state], 0, env);
      var step := TryAll(s, at, table[ctx.state], 0, env);
      if step.Handled? {
        HandledState(s, at, table, env);
        RunTold(s, step.ctx, table, env);
      }
    }
  }

  /** On every command line: each call saw exactly the criteria added since the
    * last semicolon (or the start) and not cleared since; the result asks for a
    * render exactly when some call did; a line without an error was consumed to
    * its terminator, and an error stands within the line. */
  lemma ParseTellsAll(s: string, table: Table, env: nat -> Outcome)
    requires NulFree(s) && Closed(table, env)
    ensures Told(s, Run(s, START, table, env), env)
  {
    forall x: nat ensures !Standing([], env, x) {
    }
    RunTold(s, START, table, env);
  }

  /** Criteria do not outlive a semicolon: between a criterion and a call that
    * sees it there is none. */
  lemma CriteriaEndWithCommand(s: string, table: Table, env: nat -> Outcome, k: nat, x: nat, j: nat)
    requires NulFree(s) && Closed(table, env) && !Run(s, START, table, env).Aborted?
    requires var log := Run(s, START, table, env).ctx.log;
             k < |log| && log[k].Called? && x in log[k].criteria && x < j < k
    ensures var log := Run(s, START, table, env).ctx.log;
            log[x].Called? && env(x).effect == Add && log[j].Called?
  {
    ParseTellsAll(s, table, env);
    var log := Run(s, START, table, env).ctx.log;
    assert SawExactly(log, env, k);
    assert Standing(log[..k], env, x);
    assert log[..k][j] == log[j] && log[..k][x] == log[x];
  }
}
