/** The agentic tool loop: generate, run the server-side tools, and go round until an answer, a
    client-side call, or a limit. */
module AgenticLoop {
  import opened KeyOrder
  import opened ToolCalls
  import A = AssistantOutput

  datatype Message =
    | Other(role: string, content: string)
    | AssistantText(content: string)
    | AssistantCalls(said: Option<string>, calls: seq<A.ToolCall>)
    | ToolResult(callId: string, content: string)

  // parsed calls come from the engine's own parser; an empty id stands for a missing one
  datatype Completion = Completion(text: string, parsed: Option<seq<A.ToolCall>>, semanticContent: Option<string>)

  // The limits, and what engine, tools, text parser and id source answer. The engine sees the number
  // of the generation and the messages; None stands for an exception or no output.
  datatype Loop = Loop(
    maxRounds: int,
    budget: Option<int>,
    serial: bool,
    isMcp: string -> bool,
    parse: A.Parser,
    newId: (nat, nat) -> string,
    engine: (nat, seq<Message>) -> Option<seq<Completion>>,
    execute: (nat, A.ToolCall) -> string)

  datatype Execution = Execution(call: A.ToolCall, text: string)

  datatype Result = Result(output: seq<Completion>, executions: seq<Execution>, rounds: nat, messages: seq<Message>,
                           pending: seq<A.ToolCall>)

  // ---- Calls of one generation ------------------------------------------------------------------

  function WithIds(calls: seq<A.ToolCall>, round: nat, newId: (nat, nat) -> string): (r: seq<A.ToolCall>)
    ensures |r| == |calls|
  {
    seq(|calls|, (i: nat) requires i < |calls| =>
                   if calls[i].id == [] then calls[i].(id := newId(round, i)) else calls[i])
  }

  function Detected(loop: Loop, c: Completion, round: nat): seq<A.ToolCall> {
    Limited(if c.parsed.Some? then WithIds(c.parsed.value, round, loop.newId)
            else A.ParseIfPresent(loop.parse, c.text), loop.serial)
  }

  predicate Spent(loop: Loop, used: nat) { loop.budget.Some? && loop.budget.value - used <= 0 }

  function Admitted(loop: Loop, calls: seq<A.ToolCall>, used: nat): seq<A.ToolCall>
    requires !Spent(loop, used)
  {
    if loop.budget.Some? && |calls| > loop.budget.value - used then calls[..loop.budget.value - used] else calls
  }

  function Executed(loop: Loop, calls: seq<A.ToolCall>, used: nat): (r: seq<Execution>)
    ensures |r| == |calls|
  {
    seq(|calls|, (i: nat) requires i < |calls| => Execution(calls[i], loop.execute(used + i, calls[i])))
  }

  function Answers(executions: seq<Execution>): seq<Message> {
    seq(|executions|, (i: nat) requires i < |executions| => ToolResult(executions[i].call.id, executions[i].text))
  }

  function AppendFinal(messages: seq<Message>, output: seq<Completion>, serial: bool, round: nat,
                       newId: (nat, nat) -> string): seq<Message> {
    if output == [] then messages
    else
      var c := output[0];
      messages + [if c.parsed.Some?
                  then AssistantCalls(c.semanticContent, WithIds(Limited(c.parsed.value, serial), round, newId))
                  else AssistantText(c.text)]
  }

  // ---- What a run of rounds is ------------------------------------------------------------------

  /** The calls that one round admits; none when the loop cannot go on with it. */
  function CallsAt(loop: Loop, start: seq<Message>, round: nat, used: nat): seq<A.ToolCall> {
    var output := loop.engine(round, start);
    if output.None? || output.value == [] || Spent(loop, used) then []
    else Admitted(loop, Detected(loop, output.value[0], round), used)
  }

  function Turn(calls: seq<A.ToolCall>, done: seq<Execution>): seq<Message> {
    [AssistantCalls(None, calls)] + Answers(done)
  }

  /** From these messages on, this many rounds starting with the given number produce exactly this
      conversation, these executions and these pending calls: each round is the admitted calls of one
      generation followed by one result per server-side call, in call order and with its id; a round
      with client calls is the last, and leaves exactly those pending. */
  ghost predicate Played(loop: Loop, start: seq<Message>, round: nat, used: nat, rounds: nat,
                         body: seq<Message>, executions: seq<Execution>, pending: seq<A.ToolCall>)
    decreases rounds
  {
    if rounds == 0 then body == [] && executions == [] && pending == []
    else
      var calls := CallsAt(loop, start, round, used);
      var done := Executed(loop, Mcp(calls, loop.isMcp), used);
      var turn := Turn(calls, done);
      && calls != [] && turn <= body && done <= executions
      && var rest, later := body[|turn|..], executions[|done|..];
         if Client(calls, loop.isMcp) == []
         then Played(loop, start + turn, round + 1, used + |done|, rounds - 1, rest, later, pending)
         else rounds == 1 && rest == [] && later == [] && pending == Client(calls, loop.isMcp)
  }

  /** A conversation of complete rounds continues with any further ones. */
  lemma {:induction false} PlayedAppend(loop: Loop, start: seq<Message>, round: nat, used: nat,
                                        rounds: nat, body: seq<Message>, executions: seq<Execution>,
                                        rounds': nat, body': seq<Message>, executions': seq<Execution>,
                                        pending: seq<A.ToolCall>)
    requires Played(loop, start, round, used, rounds, body, executions, [])
    requires Played(loop, start + body, round + rounds, used + |executions|, rounds', body', executions', pending)
    ensures Played(loop, start, round, used, rounds + rounds', body + body', executions + executions', pending)
    decreases rounds
  {
    hide CallsAt, Executed, Turn, Mcp, Client;
    if rounds == 0 {
      assert start + body == start && body + body' == body' && executions + executions' == executions';
    } else {
      var calls := CallsAt(loop, start, round, used);
      var done := Executed(loop, Mcp(calls, loop.isMcp), used);
      var turn := Turn(calls, done);
      var rest, later := body[|turn|..], executions[|done|..];
      assert start + body == start + turn + rest;
      assert Client(calls, loop.isMcp) == [];
      PlayedAppend(loop, start + turn, round + 1, used + |done|, rounds - 1, rest, later, rounds', body', executions',
                   pending);
      assert (body + body')[|turn|..] == rest + body';
      assert (executions + executions')[|done|..] == later + executions';
    }
  }

  /** One more round after complete ones. */
  lemma PlayedNext(loop: Loop, start: seq<Message>, rounds: nat, body: seq<Message>, executions: seq<Execution>)
    requires Played(loop, start, 1, 0, rounds, body, executions, [])
    requires CallsAt(loop, start + body, rounds + 1, |executions|) != []
    ensures var calls := CallsAt(loop, start + body, rounds + 1, |executions|);
            var done := Executed(loop, Mcp(calls, loop.isMcp), |executions|);
            Played(loop, start, 1, 0, rounds + 1, body + Turn(calls, done), executions + done,
                   Client(calls, loop.isMcp))
  {
    hide CallsAt, Executed, Turn, Mcp, Client;
    var calls := CallsAt(loop, start + body, rounds + 1, |executions|);
    var done := Executed(loop, Mcp(calls, loop.isMcp), |executions|);
    var turn := Turn(calls, done);
    assert turn[|turn|..] == [] && done[|done|..] == [];
    assert Played(loop, start + body + turn, rounds + 2, |executions| + |done|, 0, [], [], []);
    assert Played(loop, start + body, rounds + 1, |executions|, 1, turn, done, Client(calls, loop.isMcp));
    PlayedAppend(loop, start, 1, 0, rounds, body, executions, 1, turn, done, Client(calls, loop.isMcp));
  }

  function Allowance(loop: Loop): int
    requires loop.budget.Some?
  {
    if loop.budget.value < 0 then 0 else loop.budget.value
  }

  /** The budget bounds the executions of any run of rounds. */
  lemma {:induction false} BudgetIsKept(loop: Loop, start: seq<Message>, round: nat, used: nat, rounds: nat,
                                        body: seq<Message>, executions: seq<Execution>, pending: seq<A.ToolCall>)
    requires Played(loop, start, round, used, rounds, body, executions, pending)
    requires loop.budget.Some? && used <= Allowance(loop)
    ensures used + |executions| <= Allowance(loop)
    decreases rounds
  {
    hide Turn, Mcp, Client, CallsAt;
    if rounds > 0 {
      CallsWithinBudget(loop, start, round, used);
      var calls := CallsAt(loop, start, round, used);
      var done := Executed(loop, Mcp(calls, loop.isMcp), used);
      hide Executed;
      var turn := Turn(calls, done);
      if Client(calls, loop.isMcp) == [] {
        BudgetIsKept(loop, start + turn, round + 1, used + |done|, rounds - 1, body[|turn|..], executions[|done|..],
                     pending);
      }
    }
  }

  lemma CallsWithinBudget(loop: Loop, start: seq<Message>, round: nat, used: nat)
    requires loop.budget.Some? && used <= Allowance(loop)
    ensures used + |CallsAt(loop, start, round, used)| <= Allowance(loop)
  {
    hide Detected;
  }

  // ---- The loop ---------------------------------------------------------------------------------

  method ExecuteCalls(loop: Loop, mcp: seq<A.ToolCall>, used: nat) returns (done: seq<Execution>, results: seq<Message>)
    ensures done == Executed(loop, mcp, used) && results == Answers(done)
  {
    done, results := [], [];
    var i := 0;
    while i < |mcp|
      invariant 0 <= i <= |mcp| && |done| == |results| == i
      invariant forall k | 0 <= k < i ::
                  done[k] == Executed(loop, mcp, used)[k] && results[k] == ToolResult(done[k].call.id, done[k].text)
    {
      var execution := Execution(mcp[i], loop.execute(used + i, mcp[i]));
      done, results := done + [execution], results + [ToolResult(execution.call.id, execution.text)];
      i := i + 1;
    }
  }

  // ---- What the conversation says ---------------------------------------------------------------

  /** These are the calls that the engine's choice reported, its own parsed ones or else those found in
      its text, in order and with every given id, as many as the serial limit and the budget admit. */
  ghost predicate AskedBy(loop: Loop, c: Completion, round: nat, used: nat, calls: seq<A.ToolCall>) {
    var reported := match c.parsed
                    case Some(parsed) => parsed
                    case None => if A.LooksLikeToolCall(c.text) then loop.parse(c.text) else [];
    && |calls| <= |reported| && (loop.serial ==> |calls| <= 1)
    && (loop.budget.Some? ==> |calls| <= loop.budget.value - used)
    && (|calls| == |reported| || (loop.serial && |calls| == 1)
        || (loop.budget.Some? && |calls| == loop.budget.value - used))
    && forall i | 0 <= i < |calls| ::
         if c.parsed.Some? then Kept(reported[i], calls[i], loop.newId(round, i)) else calls[i] == reported[i]
  }

  /** Every round is one assistant message with the calls of one generation over the messages so far,
      and then, for its server-side calls in order, one tool message each, with the id of the call and
      what executing it returned. */
  ghost predicate Tells(loop: Loop, start: seq<Message>, round: nat, used: nat, body: seq<Message>,
                        executions: seq<Execution>)
    decreases |body|
  {
    if body == [] then executions == []
    else
      var output := loop.engine(round, start);
      && output.Some? && output.value != [] && body[0].AssistantCalls? && body[0].said == None
      && AskedBy(loop, output.value[0], round, used, body[0].calls)
      && var mcp := Mcp(body[0].calls, loop.isMcp);
         var n := |mcp|;
         && n < |body| && n <= |executions|
         && (forall i | 0 <= i < n ::
               && body[i + 1] == ToolResult(mcp[i].id, loop.execute(used + i, mcp[i]))
               && executions[i] == Execution(mcp[i], loop.execute(used + i, mcp[i])))
         && Tells(loop, start + body[..n + 1], round + 1, used + n, body[n + 1..], executions[n..])
  }

  lemma CallsAtAsk(loop: Loop, start: seq<Message>, round: nat, used: nat)
    requires CallsAt(loop, start, round, used) != []
    ensures var output := loop.engine(round, start);
            output.Some? && output.value != []
            && AskedBy(loop, output.value[0], round, used, CallsAt(loop, start, round, used))
  {
  }

  lemma TurnTells(loop: Loop, start: seq<Message>, round: nat, used: nat, rest: seq<Message>, later: seq<Execution>)
    requires CallsAt(loop, start, round, used) != []
    requires var calls := CallsAt(loop, start, round, used);
             var done := Executed(loop, Mcp(calls, loop.isMcp), used);
             Tells(loop, start + Turn(calls, done), round + 1, used + |done|, rest, later)
    ensures var calls := CallsAt(loop, start, round, used);
            var done := Executed(loop, Mcp(calls, loop.isMcp), used);
            Tells(loop, start, round, used, Turn(calls, done) + rest, done + later)
  {
    hide CallsAt, AskedBy, Mcp, Client;
    CallsAtAsk(loop, start, round, used);
    var calls := CallsAt(loop, start, round, used);
    var mcp := Mcp(calls, loop.isMcp);
    var done := Executed(loop, mcp, used);
    var turn := Turn(calls, done);
    var body, executions, n := turn + rest, done + later, |mcp|;
    assert body[0] == AssistantCalls(None, calls);
    assert body[..n + 1] == turn && body[n + 1..] == rest && executions[n..] == later;
    forall i | 0 <= i < n
      ensures body[i + 1] == ToolResult(mcp[i].id, loop.execute(used + i, mcp[i]))
      ensures executions[i] == Execution(mcp[i], loop.execute(used + i, mcp[i]))
    {
      assert body[i + 1] == Answers(done)[i] && executions[i] == done[i];
    }
  }

  /** Whatever is a run of rounds tells exactly that. */
  lemma {:induction false} PlayedTells(loop: Loop, start: seq<Message>, round: nat, used: nat, rounds: nat,
                                       body: seq<Message>, executions: seq<Execution>, pending: seq<A.ToolCall>)
    requires Played(loop, start, round, used, rounds, body, executions, pending)
    ensures Tells(loop, start, round, used, body, executions)
    decreases rounds
  {
    hide CallsAt, Mcp, Client, Tells, Turn, Executed;
    if rounds == 0 {
      NothingTold(loop, start, round, used);
    } else {
      var calls := CallsAt(loop, start, round, used);
      var done := Executed(loop, Mcp(calls, loop.isMcp), used);
      var turn := Turn(calls, done);
      var rest, later := body[|turn|..], executions[|done|..];
      assert body == turn + rest && executions == done + later;
      if Client(calls, loop.isMcp) == [] {
        PlayedTells(loop, start + turn, round + 1, used + |done|, rounds - 1, rest, later, pending);
      } else {
        NothingTold(loop, start + turn, round + 1, used + |done|);
      }
      TurnTells(loop, start, round, used, rest, later);
    }
  }

  lemma NothingTold(loop: Loop, start: seq<Message>, round: nat, used: nat)
    ensures Tells(loop, start, round, used, [], [])
  {
  }

  // ---- What an end of the loop is ---------------------------------------------------------------

  /** The conversation after the final output: the first choice adds exactly one assistant message, which
      is its text, or its semantic content with its parsed calls; every id that was given is kept. */
  ghost predicate FinalTurn(loop: Loop, before: seq<Message>, output: seq<Completion>, round: nat,
                            after: seq<Message>) {
    if output == [] then after == before
    else
      && |after| == |before| + 1 && before <= after
      && var c, last := output[0], after[|before|];
         match c.parsed
         case None => last == AssistantText(c.text)
         case Some(parsed) =>
           && last.AssistantCalls? && last.said == c.semanticContent
           && |last.calls| == (if loop.serial && parsed != [] then 1 else |parsed|)
           && forall i | 0 <= i < |last.calls| :: Kept(parsed[i], last.calls[i], loop.newId(round, i))
  }

  /** The call as it was reported, with a new id only where none was given. */
  predicate Kept(parsed: A.ToolCall, call: A.ToolCall, id: string) {
    && call.name == parsed.name && call.arguments == parsed.arguments
    && call.id == if parsed.id == [] then id else parsed.id
  }

  lemma AppendFinalIs(loop: Loop, before: seq<Message>, output: seq<Completion>, round: nat)
    ensures FinalTurn(loop, before, output, round, AppendFinal(before, output, loop.serial, round, loop.newId))
  {
  }

  /** How the loop ends after n complete rounds, whose executions these are. At a limit, one more
      generation is the answer. Otherwise the next generation breaks the loop, is the answer, finds the
      budget used up from the start, or leaves client calls pending. */
  ghost predicate EndsAfter(loop: Loop, messages: seq<Message>, n: nat, executions: seq<Execution>,
                            result: Option<Result>, generations: nat) {
    if n >= loop.maxRounds || (n > 0 && Spent(loop, |executions|)) then
      generations == n + 1 && FinalGeneration(loop, messages, n, executions, result, generations)
    else match loop.engine(n + 1, messages)
      case None => generations == n + 1 && result == None
      case Some(output) =>
        if output == [] then generations == n + 1 && result == None
        else
          var calls := Detected(loop, output[0], n + 1);
          if calls == [] then
            generations == n + 1 && AnsweredBy(loop, messages, n + 1, executions, output, result, generations)
          else if Spent(loop, |executions|) then
            generations == n + 2 && FinalGeneration(loop, messages, n + 1, executions, result, generations)
          else generations == n + 1 && LeftPending(loop, messages, n + 1, executions, output, result)
  }

  ghost predicate FinalGeneration(loop: Loop, messages: seq<Message>, rounds: nat, executions: seq<Execution>,
                                  result: Option<Result>, generations: nat) {
    match loop.engine(generations, messages)
    case None => result == None
    case Some(output) => AnsweredBy(loop, messages, rounds, executions, output, result, generations)
  }

  ghost predicate AnsweredBy(loop: Loop, messages: seq<Message>, rounds: nat, executions: seq<Execution>,
                             output: seq<Completion>, result: Option<Result>, generations: nat) {
    && result.Some? && result.value.(messages := []) == Result(output, executions, rounds, [], [])
    && FinalTurn(loop, messages, output, generations, result.value.messages)
  }

  /** The last round ends with client calls: its server-side calls are answered, the others pending. */
  ghost predicate LeftPending(loop: Loop, messages: seq<Message>, round: nat, executions: seq<Execution>,
                              output: seq<Completion>, result: Option<Result>) {
    var calls := CallsAt(loop, messages, round, |executions|);
    var done := Executed(loop, Mcp(calls, loop.isMcp), |executions|);
    var pending := Client(calls, loop.isMcp);
    && pending != []
    && result == Some(Result(output, executions + done, round, messages + Turn(calls, done), pending))
  }

  ghost predicate Ends(loop: Loop, messages: seq<Message>, result: Option<Result>, generations: nat) {
    exists n: nat, body, executions ::
      && n <= RoundLimit(loop) && Played(loop, messages, 1, 0, n, body, executions, [])
      && EndsAfter(loop, messages + body, n, executions, result, generations)
  }

  function RoundLimit(loop: Loop): nat { if loop.maxRounds > 0 then loop.maxRounds else 0 }

  /** The whole loop; None stands for an exception, which only the engine's outputs cause. */
  method RunAgenticLoop(loop: Loop, messages: seq<Message>) returns (result: Option<Result>, generations: nat)
    ensures generations <= RoundLimit(loop) + 1
    ensures Ends(loop, messages, result, generations)
    ensures result.Some? && result.value.pending != [] ==>
              && messages <= result.value.messages
              && Played(loop, messages, 1, 0, result.value.rounds, result.value.messages[|messages|..],
                        result.value.executions, result.value.pending)
    ensures result.Some? && loop.budget.Some? ==> |result.value.executions| <= Allowance(loop)
  {
    hide Played, Executed, Turn, Mcp, Client, Detected, AppendFinal, FinalTurn, CallsAt;
    var body: seq<Message> := [];
    var executions: seq<Execution> := [];
    var rounds := 0;
    ghost var complete := 0;
    generations := 0;
    StartPlayed(loop, messages);
    while rounds < loop.maxRounds
      invariant generations == rounds == complete <= RoundLimit(loop)
      invariant Played(loop, messages, 1, 0, rounds, body, executions, [])
      invariant rounds > 0 ==> !Spent(loop, |executions|)
    {
      rounds := rounds + 1;
      generations := generations + 1;
      var output := loop.engine(generations, messages + body);
      if output.None? || output.value == [] {
        assert EndsAfter(loop, messages + body, complete, executions, None, generations);
        return None, generations;
      }
      var calls := Detected(loop, output.value[0], rounds);
      if calls == [] {
        var final := AppendFinal(messages + body, output.value, loop.serial, generations, loop.newId);
        AppendFinalIs(loop, messages + body, output.value, generations);
        result := Some(Result(output.value, executions, rounds, final, []));
        assert EndsAfter(loop, messages + body, complete, executions, result, generations);
        Budget(loop, messages, complete, body, executions, []);
        return;
      }
      if Spent(loop, |executions|) { break; }
      CallsAtIs(loop, messages + body, rounds, |executions|);
      calls := Admitted(loop, calls, |executions|);
      PlayedNext(loop, messages, complete, body, executions);
      var mcp, client := Split(calls, loop.isMcp);
      var done, results := ExecuteCalls(loop, mcp, |executions|);
      TurnIs(calls, done);
      if client != [] {
        var after := messages + (body + ([AssistantCalls(None, calls)] + results));
        result := Some(Result(output.value, executions + done, rounds, after, client));
        assert after == messages + body + Turn(calls, done);
        assert EndsAfter(loop, messages + body, complete, executions, result, generations);
        assert after[|messages|..] == body + Turn(calls, done);
        Budget(loop, messages, complete + 1, body + Turn(calls, done), executions + done, client);
        return;
      }
      body := body + ([AssistantCalls(None, calls)] + results);
      executions := executions + done;
      complete := complete + 1;
      if Spent(loop, |executions|) { break; }
    }
    Budget(loop, messages, complete, body, executions, []);
    generations := generations + 1;
    var output := loop.engine(generations, messages + body);
    if output.None? {
      assert EndsAfter(loop, messages + body, complete, executions, None, generations);
      return None, generations;
    }
    var final := AppendFinal(messages + body, output.value, loop.serial, generations, loop.newId);
    AppendFinalIs(loop, messages + body, output.value, generations);
    result := Some(Result(output.value, executions, rounds, final, []));
    assert EndsAfter(loop, messages + body, complete, executions, result, generations);
  }

  /** The conversation of a run that was not interrupted: the input, the told rounds, and then the one
      final turn unless client calls are pending. */
  ghost predicate Conversation(loop: Loop, messages: seq<Message>, r: Result, generations: nat) {
    exists told ::
      && Tells(loop, messages, 1, 0, told, r.executions)
      && if r.pending != [] then r.messages == messages + told
         else
           && loop.engine(generations, messages + told) == Some(r.output)
           && FinalTurn(loop, messages + told, r.output, generations, r.messages)
  }

  lemma ConversationIs(loop: Loop, messages: seq<Message>, r: Result, generations: nat)
    requires Ends(loop, messages, Some(r), generations)
    ensures Conversation(loop, messages, r, generations)
  {
    hide Tells, FinalTurn, Played, CallsAt, Turn, Executed, Mcp, Client, Detected;
    var n: nat, body, executions :|
      && n <= RoundLimit(loop) && Played(loop, messages, 1, 0, n, body, executions, [])
      && EndsAfter(loop, messages + body, n, executions, Some(r), generations);
    PlayedTells(loop, messages, 1, 0, n, body, executions, []);
    if r.pending != [] {
      assert LeftPending(loop, messages + body, n + 1, executions, r.output, Some(r));
      var calls := CallsAt(loop, messages + body, n + 1, |executions|);
      var done := Executed(loop, Mcp(calls, loop.isMcp), |executions|);
      NoClients(loop);
      PlayedNext(loop, messages, n, body, executions);
      PlayedTells(loop, messages, 1, 0, n + 1, body + Turn(calls, done), executions + done, r.pending);
      assert messages + body + Turn(calls, done) == messages + (body + Turn(calls, done));
    }
  }

  lemma NoClients(loop: Loop)
    ensures Client([], loop.isMcp) == []
  {
  }

  lemma CallsAtIs(loop: Loop, start: seq<Message>, round: nat, used: nat)
    requires var output := loop.engine(round, start);
             output.Some? && output.value != [] && !Spent(loop, used) && Detected(loop, output.value[0], round) != []
    ensures var calls := Detected(loop, loop.engine(round, start).value[0], round);
            CallsAt(loop, start, round, used) == Admitted(loop, calls, used) != []
  {
    hide Detected;
  }

  lemma StartPlayed(loop: Loop, messages: seq<Message>)
    ensures Played(loop, messages, 1, 0, 0, [], [], [])
  {
  }

  lemma TurnIs(calls: seq<A.ToolCall>, done: seq<Execution>)
    ensures Turn(calls, done) == [AssistantCalls(None, calls)] + Answers(done)
  {
  }

  lemma Budget(loop: Loop, messages: seq<Message>, rounds: nat, body: seq<Message>, executions: seq<Execution>,
               pending: seq<A.ToolCall>)
    requires Played(loop, messages, 1, 0, rounds, body, executions, pending)
    ensures loop.budget.Some? ==> |executions| <= Allowance(loop)
  {
    if loop.budget.Some? { BudgetIsKept(loop, messages, 1, 0, rounds, body, executions, pending); }
  }

  // ---- Pending calls are the unanswered ones ----------------------------------------------------

  function Without(calls: seq<A.ToolCall>, answered: set<string>): seq<A.ToolCall> {
    if calls == [] then [] else (if calls[0].id in answered then [] else [calls[0]]) + Without(calls[1..], answered)
  }

  /** The calls of the last assistant message that no later tool message answers. */
  function Unanswered(messages: seq<Message>, answered: set<string>): seq<A.ToolCall> {
    if messages == [] then []
    else match messages[|messages| - 1]
      case ToolResult(id, _) => Unanswered(messages[..|messages| - 1], answered + {id})
      case AssistantCalls(_, calls) => Without(calls, answered)
      case _ => []
  }

  function Ids(done: seq<Execution>): set<string> { set e | e in done :: e.call.id }

  lemma OneAnswer(messages: seq<Message>, id: string, text: string, answered: set<string>)
    ensures Unanswered(messages + [ToolResult(id, text)], answered) == Unanswered(messages, answered + {id})
  {
    assert (messages + [ToolResult(id, text)])[..|messages|] == messages;
  }

  lemma {:induction false} AnswersAnswer(messages: seq<Message>, done: seq<Execution>, answered: set<string>)
    ensures Unanswered(messages + Answers(done), answered) == Unanswered(messages, answered + Ids(done))
    decreases |done|
  {
    hide Unanswered;
    if done == [] {
      assert messages + Answers(done) == messages && answered + Ids(done) == answered;
    } else {
      var init, last := done[..|done| - 1], done[|done| - 1];
      assert messages + Answers(done) == messages + Answers(init) + [ToolResult(last.call.id, last.text)];
      OneAnswer(messages + Answers(init), last.call.id, last.text, answered);
      AnswersAnswer(messages, init, answered + {last.call.id});
      assert done == init + [last];
      assert answered + {last.call.id} + Ids(init) == answered + Ids(done);
    }
  }

  /** No client call shares its id with a server-side call of the same message. */
  ghost predicate Separate(calls: seq<A.ToolCall>, isMcp: string -> bool) {
    forall c, m | c in calls && m in calls && !isMcp(c.name) && isMcp(m.name) :: c.id != m.id
  }

  /** When all server-side calls are answered, what is left are client calls, all of them exactly when
      none was answered by accident. */
  lemma {:induction false} WithoutIsClientIff(calls: seq<A.ToolCall>, isMcp: string -> bool, answered: set<string>)
    requires forall c | c in calls && isMcp(c.name) :: c.id in answered
    ensures |Without(calls, answered)| <= |Client(calls, isMcp)|
    ensures Without(calls, answered) == Client(calls, isMcp) <==>
              forall c | c in calls && !isMcp(c.name) :: c.id !in answered
  {
    if calls != [] {
      var rest := calls[1..];
      assert calls == [calls[0]] + rest && forall c :: c in calls <==> c == calls[0] || c in rest;
      WithoutIsClientIff(rest, isMcp, answered);
      var left, client := Without(rest, answered), Client(rest, isMcp);
      var head: seq<A.ToolCall> := [calls[0]];
      if isMcp(calls[0].name) {
        assert Without(calls, answered) == left && Client(calls, isMcp) == client;
      } else if calls[0].id in answered {
        assert Without(calls, answered) == left && Client(calls, isMcp) == head + client;
      } else {
        assert Without(calls, answered) == head + left && Client(calls, isMcp) == head + client;
        assert (head + left)[1..] == left && (head + client)[1..] == client;
      }
    }
  }

  lemma TurnLeavesClientCalls(loop: Loop, before: seq<Message>, calls: seq<A.ToolCall>, used: nat)
    ensures Unanswered(before + Turn(calls, Executed(loop, Mcp(calls, loop.isMcp), used)), {}) ==
              Client(calls, loop.isMcp)
       <==> Separate(calls, loop.isMcp)
  {
    var mcp := Mcp(calls, loop.isMcp);
    var done := Executed(loop, mcp, used);
    var asked := before + [AssistantCalls(None, calls)];
    assert before + Turn(calls, done) == asked + Answers(done);
    AnswersAnswer(asked, done, {});
    McpMembers(calls, loop.isMcp);
    forall m | m in mcp ensures m.id in Ids(done) {
      var i :| 0 <= i < |mcp| && mcp[i] == m;
      assert done[i].call == m && done[i] in done;
    }
    assert forall e | e in done :: e.call in mcp;
    assert {} + Ids(done) == Ids(done);
    WithoutIsClientIff(calls, loop.isMcp, Ids(done));
  }

  /** The calls of the last assistant message. */
  function LastAsked(messages: seq<Message>): seq<A.ToolCall> {
    if messages == [] then []
    else match messages[|messages| - 1]
      case ToolResult(_, _) => LastAsked(messages[..|messages| - 1])
      case AssistantCalls(_, calls) => calls
      case _ => []
  }

  lemma {:induction false} LastAskedInTurn(before: seq<Message>, calls: seq<A.ToolCall>, done: seq<Execution>)
    ensures LastAsked(before + Turn(calls, done)) == calls
    decreases |done|
  {
    var all := before + Turn(calls, done);
    if done == [] {
      assert all[|all| - 1] == AssistantCalls(None, calls);
    } else {
      var init := done[..|done| - 1];
      assert Answers(done)[..|init|] == Answers(init);
      assert all[..|all| - 1] == before + Turn(calls, init);
      LastAskedInTurn(before, calls, init);
    }
  }

  /** The pending calls are exactly the calls of the last assistant message that no tool message
      answers if and only if none of its client calls shares its id with a server-side one. */
  lemma {:induction false} PendingIsUnanswered(loop: Loop, start: seq<Message>, round: nat, used: nat, rounds: nat,
                                               body: seq<Message>, executions: seq<Execution>, pending: seq<A.ToolCall>)
    requires Played(loop, start, round, used, rounds, body, executions, pending) && rounds > 0
    ensures Unanswered(start + body, {}) == pending <==> Separate(LastAsked(start + body), loop.isMcp)
    decreases rounds
  {
    hide CallsAt, Executed, Turn, Mcp, Client, Unanswered, Separate, LastAsked;
    var calls := CallsAt(loop, start, round, used);
    var done := Executed(loop, Mcp(calls, loop.isMcp), used);
    var turn := Turn(calls, done);
    var rest := body[|turn|..];
    assert body == turn + rest;
    if Client(calls, loop.isMcp) == [] && rounds > 1 {
      assert start + body == start + turn + rest;
      PendingIsUnanswered(loop, start + turn, round + 1, used + |done|, rounds - 1, rest, executions[|done|..],
                          pending);
    } else {
      assert rest == [] && body == turn;
      TurnLeavesClientCalls(loop, start, calls, used);
      LastAskedInTurn(start, calls, done);
    }
  }

  /** A run in which a pending call looks answered: the engine's parser reports a server-side and a
      client call with one id, and the result of the first answers both. */
  lemma SharedIdHidesPendingCall(loop: Loop, messages: seq<Message>, server: A.ToolCall, client: A.ToolCall,
                                 text: string)
    returns (body: seq<Message>, executions: seq<Execution>)
    requires loop.engine(1, messages) == Some([Completion(text, Some([server, client]), None)])
    requires loop.budget == None && !loop.serial && server.id == client.id != []
    requires loop.isMcp(server.name) && !loop.isMcp(client.name)
    ensures Played(loop, messages, 1, 0, 1, body, executions, [client])
    ensures Unanswered(messages + body, {}) == []
  {
    var calls := [server, client];
    assert WithIds(calls, 1, loop.newId) == calls;
    assert messages + [] == messages && CallsAt(loop, messages, 1, 0) == calls;
    TwoKinds(loop, server, client);
    executions := Executed(loop, [server], 0);
    body := Turn(calls, executions);
    StartPlayed(loop, messages);
    PlayedNext(loop, messages, 0, [], []);
    assert [] + body == body && [] + executions == executions;
    var asked := messages + [AssistantCalls(None, calls)];
    assert messages + body == asked + Answers(executions);
    AnswersAnswer(asked, executions, {});
    assert executions[0] in executions && server.id in Ids(executions);
    BothAnswered(server, client, {} + Ids(executions));
  }

  lemma TwoKinds(loop: Loop, server: A.ToolCall, client: A.ToolCall)
    requires loop.isMcp(server.name) && !loop.isMcp(client.name)
    ensures Mcp([server, client], loop.isMcp) == [server] && Client([server, client], loop.isMcp) == [client]
  {
    assert [server, client][1..] == [client] && [client][1..] == [];
  }

  lemma BothAnswered(a: A.ToolCall, b: A.ToolCall, answered: set<string>)
    requires a.id in answered && b.id in answered
    ensures Without([a, b], answered) == []
  {
    assert [a, b][1..] == [b] && [b][1..] == [];
    assert Without([], answered) == [] && Without([b], answered) == [];
  }
}
