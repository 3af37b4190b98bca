/** parse_command as it works: a walk over the line, a stack, and a state. */
module CommandParserOps {
  import opened Order
  import opened ParseString
  import opened ParserStack
  import opened CommandParser

  datatype Progress = Took | Left | Quit

  class Parser {
    const stack: Stack
    var state: nat
    var criteria: seq<nat>
    var render: bool
    var log: seq<Event>

    ghost predicate Valid()
      reads this, stack, stack.places
    {
      stack.Valid()
    }

    ghost function View(walk: nat): Context
      reads this, stack
    {
      Context(walk, state, stack.contents, criteria, render, log)
    }

    constructor ()
      ensures Valid() && View(0) == START && fresh(stack) && fresh(stack.places)
    {
      stack := new Stack();
      state, criteria, render, log := INITIAL, [], false, [];
    }

    /** next_state. */
    method NextState(next: Next, env: nat -> Outcome)
      requires Valid()
      modifies this, stack, stack.places
      ensures Valid() && View(0) == Advanced(old(View(0)), next, env)
    {
      match next {
        case Call(id) =>
          var k := |log|;
          var o := env(k);
          var arguments := stack.Entries();
          log := log + [Called(id, arguments, criteria, o.needsRender)];
          criteria := match o.effect case Keep => criteria case Clear => [] case Add => criteria + [k];
          state := o.next;
          if o.needsRender {
            render := true;
          }
          stack.Clear();
        case Goto(next) =>
          state := next;
          if state == INITIAL {
            stack.Clear();
          }
      }
    }

    method PushString(identifier: Option<string>, str: string) returns (ok: bool)
      requires Valid()
      modifies stack, stack.places
      ensures Valid() && ok == WithString(old(stack.contents), identifier, str).Some?
      ensures ok ==> stack.contents == WithString(old(stack.contents), identifier, str).value
    {
      ok := true;
      if identifier.Some? {
        ok := stack.PushString(identifier.value, str);
      }
    }

    method PushNumber(identifier: Option<string>, num: int) returns (ok: bool)
      requires Valid()
      modifies stack, stack.places
      ensures Valid() && ok == WithNumber(old(stack.contents), identifier, num).Some?
      ensures ok ==> stack.contents == WithNumber(old(stack.contents), identifier, num).value
    {
      ok := true;
      if identifier.Some? {
        ok := stack.PushNumber(identifier.value, num);
      }
    }

    /** What one token does is what the specification says. */
    ghost predicate Agrees(r: Progress, walk: nat, before: Context, step: Step)
      reads this, stack
    {
      match r
      case Took => step == Handled(View(walk))
      case Left => step == Passed(walk) && View(0) == before.(walk := 0)
      case Quit => step == GaveUp
    }

    method TryLiteral(s: string, at: nat, t: Token, env: nat -> Outcome) returns (r: Progress, walk: nat)
      requires Valid() && at <= |s| && NulFree(s) && t.kind.Literal? && |t.kind.text| > 0
      modifies this, stack, stack.places
      ensures Valid() && Agrees(r, walk, old(View(at)), Try(s, old(View(at)), t, env))
    {
      walk := at;
      if !LiteralAt(s, walk, t.kind.text) {
        return Left, walk;
      }
      var ok := PushString(t.identifier, t.kind.text);
      if !ok {
        return Quit, walk;
      }
      walk := walk + |t.kind.text|;
      NextState(t.next, env);
      r := Took;
    }

    method TryNumber(s: string, at: nat, t: Token, env: nat -> Outcome) returns (r: Progress, walk: nat)
      requires Valid() && at <= |s| && NulFree(s) && t.kind == Number
      modifies this, stack, stack.places
      ensures Valid() && Agrees(r, walk, old(View(at)), Try(s, old(View(at)), t, env))
    {
      walk := at;
      var n := Strtol(s, walk);
      if n.None? {
        return Left, walk;
      }
      var ok := PushNumber(t.identifier, n.value.0);
      if !ok {
        return Quit, walk;
      }
      walk := n.value.1;
      NextState(t.next, env);
      r := Took;
    }

    method TryString(s: string, at: nat, t: Token, env: nat -> Outcome) returns (r: Progress, walk: nat)
      requires Valid() && at <= |s| && NulFree(s) && (t.kind == Str || t.kind == Word)
      modifies this, stack, stack.places
      ensures Valid() && Agrees(r, walk, old(View(at)), Try(s, old(View(at)), t, env))
    {
      var str;
      str, walk := Parse(s, at, t.kind == Word);
      if str.None? {
        return Left, walk;
      }
      var ok := PushString(t.identifier, str.value);
      if !ok {
        return Quit, walk;
      }
      if At(s, walk) == '"' {
        walk := walk + 1;
      }
      NextState(t.next, env);
      r := Took;
    }

    method TryEnd(s: string, at: nat, t: Token, env: nat -> Outcome) returns (r: Progress, walk: nat)
      requires Valid() && at <= |s| && NulFree(s) && t.kind == CommandParser.End
      modifies this, stack, stack.places
      ensures Valid() && Agrees(r, walk, old(View(at)), Try(s, old(View(at)), t, env))
    {
      walk := at;
      var c := At(s, walk);
      if c != '\0' && c != ',' && c != ';' {
        return Left, walk;
      }
      NextState(t.next, env);
      if c == '\0' || c == ';' {
        criteria := [];
        log := log + [Separated];
      }
      walk := walk + 1;
      r := Took;
    }

    method TryToken(s: string, at: nat, t: Token, env: nat -> Outcome) returns (r: Progress, walk: nat)
      requires Valid() && at <= |s| && NulFree(s) && (t.kind.Literal? ==> |t.kind.text| > 0)
      modifies this, stack, stack.places
      ensures Valid() && Agrees(r, walk, old(View(at)), Try(s, old(View(at)), t, env))
    {
      match t.kind {
        case Literal(_) => r, walk := TryLiteral(s, at, t, env);
        case Number => r, walk := TryNumber(s, at, t, env);
        case Str => r, walk := TryString(s, at, t, env);
        case Word => r, walk := TryString(s, at, t, env);
        case End => r, walk := TryEnd(s, at, t, env);
      }
    }

    /** The tokens of a state, in order. */
    method TryState(s: string, at: nat, tokens: seq<Token>, env: nat -> Outcome) returns (r: Progress, walk: nat)
      requires Valid() && at <= |s| && NulFree(s)
      requires forall k :: 0 <= k < |tokens| && tokens[k].kind.Literal? ==> |tokens[k].kind.text| > 0
      modifies this, stack, stack.places
      ensures Valid() && Agrees(r, walk, old(View(at)), TryAll(s, old(View(at)), tokens, 0, env))
    {
      ghost var before := View(at);
      walk := at;
      var c := 0;
      while c < |tokens|
        invariant c <= |tokens| && walk <= |s| && Valid()
        invariant View(walk) == before.(walk := walk)
        invariant TryAll(s, before.(walk := walk), tokens, c, env) == TryAll(s, before, tokens, 0, env)
      {
        r, walk := TryToken(s, walk, tokens[c], env);
        if r != Left {
          return;
        }
        c := c + 1;
      }
      r := Left;
    }

    method SkipBlanks(s: string, at: nat) returns (walk: nat)
      requires at <= |s|
      ensures walk == SkipBlank(s, at)
    {
      walk := at;
      while Blank(At(s, walk))
        invariant walk <= |s| && SkipBlank(s, walk) == SkipBlank(s, at)
        decreases |s| - walk
      {
        walk := walk + 1;
      }
    }
  }

  /** parse_command: the outcome, and whether anything has to be drawn again. */
  method ParseCommand(s: string, table: Table, env: nat -> Outcome)
    returns (r: Progress, needsTreeRender: bool, log: seq<Event>)
    requires NulFree(s) && Closed(table, env)
    ensures r == Quit <==> Run(s, START, table, env).Aborted?
    ensures r == Took <==> Run(s, START, table, env).Accepted?
    ensures r != Quit ==>
              needsTreeRender == Run(s, START, table, env).ctx.render && log == Run(s, START, table, env).ctx.log
  {
    var parser := new Parser();
    var walk := 0;
    while walk <= |s|
      invariant walk <= |s| + 1 && parser.Valid() && parser.state < |table|
      invariant fresh(parser) && fresh(parser.stack) && fresh(parser.stack.places)
      invariant Run(s, parser.View(walk), table, env) == Run(s, START, table, env)
      decreases |s| + 1 - walk
    {
      walk := parser.SkipBlanks(s, walk);
      LiteralsSound(table, env, parser.state);
      HandledState(s, parser.View(walk), table, env);
      r, walk := parser.TryState(s, walk, table[parser.state], env);
      if r == Quit {
        return r, false, [];
      }
      if r == Left {
        parser.stack.Clear();
        return r, parser.render, parser.log;
      }
    }
    r, needsTreeRender, log := Took, parser.render, parser.log;
  }
}
