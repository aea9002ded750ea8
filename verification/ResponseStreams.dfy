/** The direct and the agentic response stream: sequence numbers threaded through the prelude, tool
    rounds, the final generation and the failure tail. */
module ResponseStreams {
  import opened KeyOrder
  import opened ResponseEvents
  import opened ResponseProtocol
  import opened ResponseGenerator
  import opened ResponseBracketing
  import opened ResponseRegularRuns
  import opened ResponseContents
  import opened ToolCalls
  import A = AssistantOutput

  /** Numbered from 0 without gap or repeat, with exactly one terminal event, which is last. */
  predicate WellNumbered(es: seq<Event>) { Numbered(es, 0) && Closed(es) }

  lemma AppendNumbered(a: seq<Event>, b: seq<Event>)
    requires Numbered(a, 0) && Quiet(a) && Numbered(b, |a|)
    ensures Numbered(a + b, 0)
    ensures Quiet(b) ==> Quiet(a + b)
    ensures Closed(b) ==> Closed(a + b)
  {
    if Closed(b) { assert (a + b)[..|a + b| - 1] == a + b[..|b| - 1]; }
  }

  /** The protocol accepts the events and has ended. */
  ghost predicate Bracketed(rules: Rules, es: seq<Event>) {
    AcceptAll(rules, INITIAL, es).Some? && AcceptAll(rules, INITIAL, es).value.phase == Ended
  }

  lemma FailureBrackets(rules: Rules, es: seq<Event>)
    requires AcceptAll(rules, INITIAL, es).Some? && AcceptAll(rules, INITIAL, es).value.phase in {Begun, Live}
    requires Numbered(es, 0)
    ensures Bracketed(rules, es + Failure(|es|))
  {
    hide AcceptAll;
    var p := AcceptAll(rules, INITIAL, es).value;
    AcceptedIsBracketed(rules, INITIAL, es);
    AcceptFailure(rules, p);
    AcceptConcat(rules, INITIAL, es, Failure(p.num));
  }

  // ---- The direct stream ------------------------------------------------------------------------

  /** The generator of a direct stream. */
  function Direct(hasTools: bool, cs: seq<Completion>, engineFails: bool, parse: A.Parser, base: nat): Outcome {
    Generate(Start(Request(hasTools, true, true), [], 0, base), cs, engineFails, parse)
  }

  /** The rules ask for exact texts, and white space was dropped before plain text was streamed. */
  ghost predicate LosesText(rules: Rules, hasTools: bool, cs: seq<Completion>) {
    rules.exactText && Lossy(WatchedAll(Watching(hasTools), cs))
  }

  lemma DirectRun(rules: Rules, hasTools: bool, cs: seq<Completion>, engineFails: bool, parse: A.Parser, base: nat)
    ensures var outcome := Direct(hasTools, cs, engineFails, parse, base);
            var es, reached := outcome.g.out, AcceptAll(rules, INITIAL, outcome.g.out);
            && Numbered(es, 0) && (if outcome.Raised? then Quiet(es) else Closed(es))
            && (Regular(Watching(hasTools), cs) ==>
                  if outcome.Finished? && LosesText(rules, hasTools, cs) then reached == None
                  else reached.Some? && reached.value.phase == if outcome.Raised? then Live else Ended)
  {
    hide AcceptAll, Generate, Regular, Lossy;
    var request := Request(hasTools, true, true);
    assert Origin(request, [], 0) == INITIAL;
    StartRuns(request, [], 0, base);
    EveryRunIsNumbered(Start(request, [], 0, base), cs, engineFails, parse, 0);
    if Regular(Watching(hasTools), cs) {
      RegularRunIsBracketed(rules, request, [], 0, base, cs, engineFails, parse);
    }
  }

  /** The text is a tool call of a request with tools, and no semantic delta was given. */
  predicate LegacyCalls(hasTools: bool, cs: seq<Completion>, parse: A.Parser) {
    Parts(cs) == [] && A.Normalized(parse, LastText(cs), hasTools).CallsOutput?
  }

  /** The last event fails the response, or completes it with what the engine's outputs say. */
  predicate SaysAll(hasTools: bool, cs: seq<Completion>, parse: A.Parser, last: Event) {
    if LegacyCalls(hasTools, cs, parse) then last.FailedEvent?
    else last.Completed? && Contents(last.output) == Answer(cs, LastText(cs))
  }

  lemma DirectSays(hasTools: bool, cs: seq<Completion>, parse: A.Parser, base: nat)
    requires Regular(Watching(hasTools), cs)
    ensures var outcome := Direct(hasTools, cs, false, parse, base);
            var es := outcome.g.out;
            && (outcome.Raised? ==> forall num :: SaysAll(hasTools, cs, parse, FailedEvent(num)))
            && (!outcome.Raised? ==> es != [] && SaysAll(hasTools, cs, parse, es[|es| - 1]))
  {
    hide AcceptAll, Generate, Start, Regular, Parts, LastText, Answer, Contents;
    var request, rules := Request(hasTools, true, true), Rules(false, true);
    RegularRunSays(rules, request, [], 0, base, cs, false, parse);
    NoContents();
    DirectRun(rules, hasTools, cs, false, parse, base);
    FinishedCompletes(Start(request, [], 0, base), cs, parse);
  }

  lemma NoContents()
    ensures Contents([]) == []
  {
  }

  lemma FinishedCompletes(start: Gen, cs: seq<Completion>, parse: A.Parser)
    ensures var outcome := Generate(start, cs, false, parse);
            outcome.Finished? ==>
              outcome.g.out != [] && var e := outcome.g.out[|outcome.g.out| - 1]; e == Completed(e.num, outcome.output)
  {
    hide Steps, FinishSemantic, EndPlain, EndPlainReasoning, PlainOutput, A.Normalized, A.Deferred;
  }

  /** Every direct stream is well numbered, also when the prompt cannot be tokenized or the generator
      raises. On a regular run it keeps the whole protocol, unless the rules ask for exact texts and a
      finished run streamed plain text after dropping white space; then it never does. It ends with the
      answer that the engine's outputs spell. */
  method StreamDirectResponse(hasTools: bool, tokenizes: bool, chunks: seq<seq<Completion>>, engineFails: bool,
                              parse: A.Parser, base: nat, ghost rules: Rules)
    returns (events: seq<Event>)
    ensures WellNumbered(events)
    ensures !tokenizes ==> Bracketed(rules, events)
    ensures var cs := Flatten(chunks);
            tokenizes && Regular(Watching(hasTools), cs) ==>
              (Bracketed(rules, events) <==>
               !(Direct(hasTools, cs, engineFails, parse, base).Finished? && LosesText(rules, hasTools, cs)))
    ensures events == if !tokenizes then Failure(0)
                      else
                        var outcome := Direct(hasTools, Flatten(chunks), engineFails, parse, base);
                        outcome.g.out + if outcome.Raised? then Failure(|outcome.g.out|) else []
    ensures var cs, last := Flatten(chunks), events[|events| - 1];
            tokenizes && !engineFails && Regular(Watching(hasTools), cs) ==>
              SaysAll(hasTools, cs, parse, last)
  {
    hide AcceptAll, Generate, Flatten, Regular, Start, LosesText, SaysAll;
    events := [];
    var next := 0;
    var raised := !tokenizes;
    AcceptNone(rules, INITIAL);
    if tokenizes {
      var generated;
      generated, raised :=
        GenerateResponseStreamEvents(Request(hasTools, true, true), [], 0, base, chunks, engineFails, parse);
      DirectRun(rules, hasTools, Flatten(chunks), engineFails, parse, base);
      if Regular(Watching(hasTools), Flatten(chunks)) { DirectSays(hasTools, Flatten(chunks), parse, base); }
      var i := 0;
      while i < |generated|
        invariant 0 <= i <= |generated|
        invariant events == generated[..i] && next == i
      {
        next := generated[i].num + 1;
        events := events + [generated[i]];
        i := i + 1;
      }
      assert events == generated;
    }
    if raised {
      if tokenizes ==> Regular(Watching(hasTools), Flatten(chunks)) { FailureBrackets(rules, events); }
      AppendNumbered(events, Failure(next));
      events := events + Failure(next);
    }
  }

  // ---- The agentic stream -----------------------------------------------------------------------

  // What the engine, the tools and the settings contribute; None and false stand for exceptions.
  datatype Agent = Agent(
    hasTools: bool,                       // tools of the request
    hasAllTools: bool,                    // with the MCP tools
    maxRounds: int,
    serial: bool,                         // parallel_tool_calls is False
    engine: int -> Option<seq<Completion>>,
    isMcp: string -> bool,
    executes: (int, nat) -> bool,
    parse: A.Parser)

  function Detected(agent: Agent, output: seq<Completion>): seq<A.ToolCall> {
    match A.Normalized(agent.parse, if output == [] then [] else output[0].text, agent.hasAllTools)
    case TextOutput(_) => []
    case CallsOutput(calls) => Limited(calls, agent.serial)
  }

  function ItemFor(call: A.ToolCall, ids: nat): Item { ToolItem(Fresh(ids), Given(call.id), call.name, call.arguments) }

  /** The items of a list of calls, with consecutive fresh ids. */
  function Items(calls: seq<A.ToolCall>, ids: nat): (items: seq<Item>)
    ensures |items| == |calls|
  {
    seq(|calls|, (i: nat) requires i < |calls| => ItemFor(calls[i], ids + i))
  }

  lemma NoItems(ids: nat)
    ensures Items([], ids) == []
  {
  }

  lemma ItemsAppend(calls: seq<A.ToolCall>, call: A.ToolCall, ids: nat)
    ensures Items(calls + [call], ids) == Items(calls, ids) + [ItemFor(call, ids + |calls|)]
  {
  }

  lemma ItemsConcat(a: seq<A.ToolCall>, b: seq<A.ToolCall>, ids: nat)
    ensures Items(a + b, ids) == Items(a, ids) + Items(b, ids + |a|)
  {
  }

  /** The calls of a round are those found in the text of its first choice, only the first one when calls
      are serial, and none without tools. */
  lemma DetectedIs(agent: Agent, output: seq<Completion>)
    ensures var calls := Detected(agent, output);
            if output == [] || !agent.hasAllTools || !A.LooksLikeToolCall(output[0].text) then calls == []
            else
              var found := agent.parse(output[0].text);
              calls == if agent.serial && |found| > 1 then [found[0]] else found
  {
    assert A.Stripped([]) == [];
  }

  /** What the item of a call says. */
  function CallContents(calls: seq<A.ToolCall>): seq<Content> {
    seq(|calls|, (i: nat) requires i < |calls| => Called(calls[i].name, calls[i].arguments))
  }

  /** The items of calls carry their names, arguments and ids, in order, under new item ids. */
  lemma ItemsSay(calls: seq<A.ToolCall>, ids: nat)
    ensures Contents(Items(calls, ids)) == CallContents(calls)
    ensures forall i | 0 <= i < |calls| ::
              Items(calls, ids)[i].(name := [], arguments := []) == ToolItem(Fresh(ids + i), Given(calls[i].id), [], [])
  {
  }

  /** The MCP or client calls of one round. */
  function CallsOf(agent: Agent, round: int, mcp: bool): seq<A.ToolCall> {
    match agent.engine(round)
    case None => []
    case Some(output) =>
      if mcp then Mcp(Detected(agent, output), agent.isMcp) else Client(Detected(agent, output), agent.isMcp)
  }

  /** The MCP calls of the first rounds in order. */
  function McpCalls(agent: Agent, rounds: nat): seq<A.ToolCall> {
    if rounds == 0 then [] else McpCalls(agent, rounds - 1) + CallsOf(agent, rounds, true)
  }

  datatype Exit = Failed | ClientCalls | Answered

  // how a round ends: another round, the answer, the client's turn, or an exception
  datatype RoundEnd = Again | NoCalls(output: seq<Completion>) | Replied | Raises

  /** The first n MCP calls of the round return. */
  predicate Executes(agent: Agent, round: int, n: nat) { forall k | 0 <= k < n :: agent.executes(round, k) }

  /** No choice holds tool calls that were found only in the text. */
  predicate Builds(agent: Agent, cs: seq<Completion>) {
    agent.hasTools ==> forall c | c in cs :: c.parsed || A.Normalized(agent.parse, c.text, true).TextOutput?
  }

  function Fate(agent: Agent, round: int): RoundEnd {
    match agent.engine(round)
    case None => Raises
    case Some(output) =>
      var mcp, client := CallsOf(agent, round, true), CallsOf(agent, round, false);
      if mcp == [] && client == [] then NoCalls(output)
      else if !Executes(agent, round, |mcp|) then Raises
      else if client == [] then Again
      else if Builds(agent, output) then Replied else Raises
  }

  /** How many of n MCP calls are begun: all up to the first one that raises. */
  function Started(agent: Agent, round: int, n: nat): (k: nat)
    ensures k <= n
  {
    if n == 0 || Executes(agent, round, n - 1) then n else Started(agent, round, n - 1)
  }

  lemma {:induction false} StartedUpTo(agent: Agent, round: int, k: nat, n: nat)
    requires k < n && Executes(agent, round, k) && !agent.executes(round, k)
    ensures Started(agent, round, n) == k + 1
  {
    if n > k + 1 { StartedUpTo(agent, round, k, n - 1); }
  }

  /** The calls of a round whose items are finished when it ends. */
  function Shown(agent: Agent, round: int): seq<A.ToolCall> {
    var mcp, client := CallsOf(agent, round, true), CallsOf(agent, round, false);
    if client == [] then mcp[..Started(agent, round, |mcp|)] else if Executes(agent, round, |mcp|) then client else []
  }

  /** All calls whose items are finished: the MCP calls of the earlier rounds and what the last shows. */
  function ShownCalls(agent: Agent, rounds: nat): seq<A.ToolCall> {
    if rounds == 0 then [] else McpCalls(agent, rounds - 1) + Shown(agent, rounds)
  }

  /** The events of a stream whose items so far are these finished tool calls. */
  function Opening(items: seq<Item>): seq<Event>
    requires forall i | 0 <= i < |items| :: items[i].ToolItem?
  {
    Prelude(0) + PrefixEvents(items, 0, 2)
  }

  lemma {:induction false} PrefixSnoc(items: seq<Item>, item: Item, index: nat, num: nat)
    requires item.ToolItem? && forall i | 0 <= i < |items| :: items[i].ToolItem?
    ensures var es := PrefixEvents(items, index, num);
            PrefixEvents(items + [item], index, num) == es + ToolCallEvents(item, index + |items|, num + |es|)
    decreases items
  {
    hide ToolCallEvents;
    if items == [] {
      assert items + [item] == [item] && [item][1..] == [];
      assert ToolCallEvents(item, index, num) + [] == ToolCallEvents(item, index, num);
    } else {
      assert (items + [item])[0] == items[0] && (items + [item])[1..] == items[1..] + [item];
      PrefixSnoc(items[1..], item, index + 1, num + |ToolCallEvents(items[0], index, num)|);
    }
  }

  /** A stream that is between items, with only finished tool calls so far. */
  ghost predicate BetweenItems(rules: Rules, es: seq<Event>, next: nat, items: seq<Item>, ids: nat) {
    && (forall i | 0 <= i < |items| :: items[i].ToolItem?) && es == Opening(items)
    && Numbered(es, 0) && Quiet(es) && next == |es|
    && AcceptAll(rules, INITIAL, es) == Some(Proto(next, Live, Nothing, |items|, items))
    && Distinct(items) && Below(items, ids)
  }

  lemma AddToolCall(rules: Rules, es: seq<Event>, next: nat, items: seq<Item>, ids: nat, call: A.ToolCall)
    requires BetweenItems(rules, es, next, items, ids)
    ensures var item := ItemFor(call, ids);
            var added := ToolCallEvents(item, |items|, next);
            BetweenItems(rules, es + added, next + |added|, items + [item], ids + 1)
  {
    hide AcceptAll, ToolCallEvents, PrefixEvents;
    var item := ItemFor(call, ids);
    var added := ToolCallEvents(item, |items|, next);
    PrefixSnoc(items, item, 0, 2);
    ToolCallNumbered(item, |items|, next);
    AppendNumbered(es, added);
    var p := Proto(next, Live, Nothing, |items|, items);
    BelowIsUnused(items, ids);
    AcceptToolCall(rules, p, item);
    AcceptConcat(rules, INITIAL, es, added);
  }

  /** Emits one finished tool-call item per call. */
  method YieldToolCalls(calls: seq<A.ToolCall>, events0: seq<Event>, seq0: nat, executed: seq<Item>, ids0: nat,
                        ghost rules: Rules)
    returns (events: seq<Event>, next: nat, ghost items: seq<Item>, ids: nat)
    requires BetweenItems(rules, events0, seq0, executed, ids0)
    ensures BetweenItems(rules, events, next, items, ids)
    ensures items == executed + Items(calls, ids0) && ids == ids0 + |calls|
  {
    hide AcceptAll, BetweenItems, ToolCallEvents;
    events, next, items, ids := events0, seq0, executed, ids0;
    var idx := 0;
    while idx < |calls|
      invariant 0 <= idx <= |calls| && ids == ids0 + idx
      invariant BetweenItems(rules, events, next, items, ids)
      invariant items == executed + Items(calls[..idx], ids0)
    {
      var item := ItemFor(calls[idx], ids);
      AddToolCall(rules, events, next, items, ids, calls[idx]);
      var toolEvents, after := BuildFunctionToolCallEvents(item, |executed| + idx, next);
      events, next := events + toolEvents, after;
      ItemsAppend(calls[..idx], calls[idx], ids0);
      assert calls[..idx] + [calls[idx]] == calls[..idx + 1];
      items, ids := items + [item], ids + 1;
      idx := idx + 1;
    }
    assert calls[..idx] == calls;
  }

  // ---- The response on client calls -------------------------------------------------------------

  /** The items that the response of a tool round keeps besides tool calls; None where building it
      raises on tool calls that were found only in the text. */
  function Preserved(agent: Agent, cs: seq<Completion>, ids: nat): Option<seq<Item>> {
    if cs == [] then Some([])
    else
      var c := cs[0];
      var reasoning := if c.reasoning == [] then [] else [ReasoningItem(Fresh(ids), c.reasoning)];
      var message := if c.parsed then [] else [MessageItem(Fresh(ids + 1), c.text)];
      if !c.parsed && agent.hasTools && A.Normalized(agent.parse, c.text, true).CallsOutput? then None
      else match Preserved(agent, cs[1..], ids + 2)
        case None => None
        case Some(rest) => Some(reasoning + message + rest)
  }

  /** The kept items, then the client calls as new items with new ids. */
  function MixedOutput(agent: Agent, cs: seq<Completion>, calls: seq<A.ToolCall>, ids: nat): Option<seq<Item>> {
    match Preserved(agent, cs, ids)
    case None => None
    case Some(items) => Some(items + Items(Limited(calls, agent.serial), ids + 2 * |cs|))
  }

  lemma {:induction false} BuildsIff(agent: Agent, cs: seq<Completion>, ids: nat)
    ensures Preserved(agent, cs, ids).Some? <==> Builds(agent, cs)
  {
    if cs != [] {
      assert cs == [cs[0]] + cs[1..];
      BuildsIff(agent, cs[1..], ids + 2);
    }
  }

  lemma {:induction false} PreservedAre(agent: Agent, cs: seq<Completion>, ids: nat)
    requires Preserved(agent, cs, ids).Some?
    ensures forall item | item in Preserved(agent, cs, ids).value :: !item.ToolItem?
    ensures Preserved(agent, cs, ids).value == [] <==> forall c | c in cs :: c.parsed && c.reasoning == []
  {
    if cs != [] {
      assert cs == [cs[0]] + cs[1..];
      PreservedAre(agent, cs[1..], ids + 2);
    }
  }

  /** For an output with one choice, the reported output is its reasoning, its text unless the engine
      parsed the calls out of it, and then the client calls. */
  lemma MixedSays(agent: Agent, c: Completion, calls: seq<A.ToolCall>, ids: nat)
    requires Builds(agent, [c])
    ensures MixedOutput(agent, [c], calls, ids).Some?
    ensures Contents(MixedOutput(agent, [c], calls, ids).value) ==
              Thoughts(c.reasoning) + (if c.parsed then [] else [Said(c.text)])
              + CallContents(Limited(calls, agent.serial))
  {
    BuildsIff(agent, [c], ids);
    assert c in [c] && [c][1..] == [] && Preserved(agent, [], ids + 2) == Some([]);
    var kept, items := Preserved(agent, [c], ids).value, Items(Limited(calls, agent.serial), ids + 2);
    ItemsSay(Limited(calls, agent.serial), ids + 2);
    ContentsConcat(kept, items);
    assert Contents(kept) == Thoughts(c.reasoning) + if c.parsed then [] else [Said(c.text)];
  }

  function WithoutId(item: Item): Item { item.(id := Fresh(0)) }

  predicate SameButIds(a: seq<Item>, b: seq<Item>) {
    |a| == |b| && forall i | 0 <= i < |a| :: WithoutId(a[i]) == WithoutId(b[i])
  }

  /** The reported output never is the list of finished items, since it holds new ones for the client
      calls. Up to ids it is exactly when no server-side call was finished before, no reasoning was
      given, and all calls came from the engine's own parser. */
  lemma MixedOutputIff(agent: Agent, cs: seq<Completion>, executed: seq<Item>, calls: seq<A.ToolCall>, ids0: nat,
                       ids: nat)
    requires (forall i | 0 <= i < |executed| :: executed[i].ToolItem?) && calls != [] &&
               Limited(calls, agent.serial) == calls
    requires ids >= ids0 + |calls| && MixedOutput(agent, cs, calls, ids).Some?
    ensures var mixed, done := MixedOutput(agent, cs, calls, ids).value, executed + Items(calls, ids0);
            && mixed != done
            && (SameButIds(mixed, done) <==> executed == [] && forall c | c in cs :: c.parsed && c.reasoning == [])
  {
    PreservedAre(agent, cs, ids);
    var kept := Preserved(agent, cs, ids).value;
    var mixed, done := MixedOutput(agent, cs, calls, ids).value, executed + Items(calls, ids0);
    var n := |calls|;
    assert mixed[|mixed| - 1] == ItemFor(calls[n - 1], ids + 2 * |cs| + n - 1);
    assert done[|done| - 1] == ItemFor(calls[n - 1], ids0 + n - 1);
    if kept != [] && |kept| == |executed| {
      assert mixed[0] == kept[0] && done[0] == executed[0] && kept[0] in kept;
      assert WithoutId(mixed[0]) != WithoutId(done[0]);
    }
  }

  /** Client calls that were found only in the text never reach the client when the request has
      tools: building the response raises. */
  lemma TextCallsRaise(agent: Agent, cs: seq<Completion>, ids: nat)
    requires Detected(agent, cs) != [] && agent.hasTools
    ensures cs != [] && (Preserved(agent, cs, ids).Some? ==> cs[0].parsed)
  {
    assert A.Stripped([]) == [];
  }

  lemma SerialClientCalls(agent: Agent, cs: seq<Completion>)
    ensures var calls := Client(Detected(agent, cs), agent.isMcp); Limited(calls, agent.serial) == calls
  {
    var calls := Client(Detected(agent, cs), agent.isMcp);
    assert agent.serial ==> |Detected(agent, cs)| <= 1;
  }

  /** A stream that ended on client calls with these items done and this output reported. It breaks the
      rule that the output lists the finished items, and no other. */
  ghost predicate Replies(rules: Rules, es: seq<Event>, items: seq<Item>, output: Option<seq<Item>>) {
    && WellNumbered(es) && (Bracketed(rules, es) <==> !rules.outputIsDone) && DoneItems(es) == items
    && (forall i | 0 <= i < |items| :: items[i].ToolItem?)
    && output.Some? && es == Opening(items) + [Completed(|Opening(items)|, output.value)]
  }

  lemma {:induction false} DoneItemsAppend(es: seq<Event>, e: Event)
    ensures DoneItems(es + [e]) == DoneItems(es) + DoneItem(e)
  {
    hide DoneItem;
    if es == [] {
      assert es + [e] == [e];
    } else {
      assert (es + [e])[1..] == es[1..] + [e];
      DoneItemsAppend(es[1..], e);
    }
  }

  lemma MixedIff(agent: Agent, cs: seq<Completion>, calls: seq<A.ToolCall>, ids: nat)
    ensures MixedOutput(agent, cs, calls, ids).Some? <==> Builds(agent, cs)
  {
    BuildsIff(agent, cs, ids);
  }

  /** The exit on client calls: their items, then response.completed with the mixed response. */
  method FinishWithClientCalls(agent: Agent, output: seq<Completion>, calls: seq<A.ToolCall>, events0: seq<Event>,
                               seq0: nat, executed: seq<Item>, ids0: nat, ghost rules: Rules)
    returns (raised: bool, events: seq<Event>, next: nat, ghost items: seq<Item>, ids: nat)
    requires BetweenItems(rules, events0, seq0, executed, ids0)
    requires calls != [] && Limited(calls, agent.serial) == calls
    ensures raised == !Builds(agent, output) && items == executed + Items(calls, ids0)
    ensures raised ==> BetweenItems(rules, events, next, items, ids)
    ensures !raised ==>
              Replies(rules, events, executed + Items(calls, ids0), MixedOutput(agent, output, calls, ids0 + |calls|))
  {
    hide AcceptAll, MixedOutput, PrefixEvents;
    events, next, items, ids := YieldToolCalls(calls, events0, seq0, executed, ids0, rules);
    var mixed := MixedOutput(agent, output, calls, ids);
    raised := mixed.None?;
    MixedIff(agent, output, calls, ids);
    if mixed.Some? {
      MixedOutputIff(agent, output, executed, calls, ids0, ids);
      var e := Completed(next, mixed.value);
      AppendNumbered(events, [e]);
      AcceptOne(rules, Proto(next, Live, Nothing, |items|, items), e);
      AcceptConcat(rules, INITIAL, events, [e]);
      AcceptedIsBracketed(rules, INITIAL, events);
      DoneItemsAppend(events, e);
      events := events + [e];
    }
  }

  /** One pass of the round loop. */
  method RunRound(agent: Agent, round: int, events0: seq<Event>, seq0: nat, executed0: seq<Item>, ids0: nat,
                  ghost rules: Rules)
    returns (end: RoundEnd, events: seq<Event>, next: nat, executed: seq<Item>, ids: nat, ghost items: seq<Item>)
    requires BetweenItems(rules, events0, seq0, executed0, ids0)
    ensures end == Fate(agent, round) && items == executed0 + Items(Shown(agent, round), ids0)
    ensures end != Replied ==> BetweenItems(rules, events, next, items, ids)
    ensures end == Again || end.NoCalls? ==> items == executed && ids == ids0 + |Shown(agent, round)|
    ensures end == Replied ==>
              var client := CallsOf(agent, round, false);
              && agent.engine(round).Some? && client == Shown(agent, round)
              && Replies(rules, events, items, MixedOutput(agent, agent.engine(round).value, client, ids0 + |client|))
  {
    hide BetweenItems, WellNumbered, Bracketed, ToolCallEvents, Mcp, Client, Detected, MixedOutput, Items, Builds,
        Started,
         Replies;
    events, next, executed, ids, items := events0, seq0, executed0, ids0, executed0;
    NoItems(ids0);
    var output := agent.engine(round);
    if output.None? { return Raises, events, next, executed, ids, items; }
    var detected := Detected(agent, output.value);
    var mcp, client := Split(detected, agent.isMcp);
    SerialClientCalls(agent, output.value);
    AllStarted(agent, round, |mcp|);
    if mcp == [] && client == [] { return NoCalls(output.value), events, next, executed, ids, items; }
    var k := 0;
    while k < |mcp|
      invariant 0 <= k <= |mcp| && Executes(agent, round, k)
      invariant BetweenItems(rules, events, next, executed, ids) && items == executed
      invariant var emitted := if client == [] then mcp[..k] else [];
                executed == executed0 + Items(emitted, ids0) && ids == ids0 + |emitted|
    {
      if client == [] {
        ItemsAppend(mcp[..k], mcp[k], ids0);
        assert mcp[..k] + [mcp[k]] == mcp[..k + 1];
        var item := ItemFor(mcp[k], ids);
        AddToolCall(rules, events, next, executed, ids, mcp[k]);
        var toolEvents, after := BuildFunctionToolCallEvents(item, |executed|, next);
        events, next := events + toolEvents, after;
        executed, ids := executed + [item], ids + 1;
        items := executed;
      }
      if !agent.executes(round, k) {
        StartedUpTo(agent, round, k, |mcp|);
        return Raises, events, next, executed, ids, items;
      }
      k := k + 1;
    }
    assert mcp[..k] == mcp;
    if client == [] { return Again, events, next, executed, ids, items; }
    var raised;
    raised, events, next, items, ids :=
      FinishWithClientCalls(agent, output.value, client, events, next, executed, ids, rules);
    end := if raised then Raises else Replied;
  }

  lemma AllStarted(agent: Agent, round: int, n: nat)
    ensures Executes(agent, round, n) ==> Started(agent, round, n) == n
  {
  }

  /** The generator over the one output that is answered from. */
  function FinalOf(agent: Agent, items: seq<Item>, ids: nat, output: seq<Completion>): Outcome
    requires forall i | 0 <= i < |items| :: items[i].ToolItem?
  {
    Generate(Start(Request(agent.hasTools, false, false), items, |Opening(items)|, ids), output, false, agent.parse)
  }

  /** A stream that ends with these items and then this answer, reporting all of them. */
  ghost predicate Answers(es: seq<Event>, items: seq<Item>, output: seq<Completion>) {
    var done := DoneItems(es);
    && Contents(done) == Contents(items) + Answer(output, LastText(output)) && items <= done
    && es != [] && es[|es| - 1] == Completed(|es| - 1, done)
  }

  lemma FinalRun(rules: Rules, es: seq<Event>, items: seq<Item>, ids: nat, agent: Agent, output: seq<Completion>)
    requires BetweenItems(rules, es, |es|, items, ids)
    ensures var outcome := FinalOf(agent, items, ids, output);
            var all := es + outcome.g.out;
            && Numbered(all, 0) && (forall i | 0 <= i < |outcome.g.out| :: outcome.g.out[i].num == |es| + i)
            && (if outcome.Raised? then Quiet(all) else Closed(all))
  {
    hide AcceptAll, Generate, Start, PrefixEvents;
    var request := Request(agent.hasTools, false, false);
    var outcome := FinalOf(agent, items, ids, output);
    StartRuns(request, items, |es|, ids);
    EveryRunIsNumbered(Start(request, items, |es|, ids), output, false, agent.parse, |es|);
    AppendNumbered(es, outcome.g.out);
  }

  lemma FinalSays(rules: Rules, es: seq<Event>, items: seq<Item>, ids: nat, agent: Agent, output: seq<Completion>)
    requires BetweenItems(rules, es, |es|, items, ids) && |output| <= 1
    ensures var outcome := FinalOf(agent, items, ids, output);
            var reached := AcceptAll(rules, INITIAL, es + outcome.g.out);
            && reached.Some? && reached.value.phase == (if outcome.Raised? then Live else Ended)
            && (outcome.Raised? <==> LegacyCalls(agent.hasTools, output, agent.parse))
            && (!outcome.Raised? ==> Answers(es + outcome.g.out, items, output))
  {
    hide AcceptAll, Generate, Start, PrefixEvents, Parts, LastText, Answer, Contents, DoneItems;
    var request, all := Request(agent.hasTools, false, false), es + FinalOf(agent, items, ids, output).g.out;
    SingleIsRegular(agent.hasTools, output);
    SingleIsNotLossy(agent.hasTools, output);
    RegularRunIsBracketed(rules, request, items, |es|, ids, output, false, agent.parse);
    RegularRunSays(rules, request, items, |es|, ids, output, false, agent.parse);
    AcceptConcat(rules, INITIAL, es, FinalOf(agent, items, ids, output).g.out);
    FinalRun(rules, es, items, ids, agent, output);
    if FinalOf(agent, items, ids, output).Finished? {
      PrefixIsKept(request, items, |es|, ids, output, agent.parse);
      FinishedCompletes(Start(request, items, |es|, ids), output, agent.parse);
      AcceptedIsBracketed(rules, INITIAL, all);
      var out, output' := FinalOf(agent, items, ids, output).g.out, FinalOf(agent, items, ids, output).output;
      assert all[|all| - 1] == out[|out| - 1] && all[|all| - 1].num == |all| - 1;
      assert DoneItems(all) == output';
    }
  }

  lemma SingleIsRegular(hasTools: bool, output: seq<Completion>)
    requires |output| <= 1
    ensures Regular(Watching(hasTools), output)
  {
    if output != [] { assert output[1..] == []; }
  }

  /** Text that arrives at once is streamed whole or not at all. */
  lemma SingleIsNotLossy(hasTools: bool, output: seq<Completion>)
    requires |output| <= 1
    ensures !Lossy(WatchedAll(Watching(hasTools), output))
  {
    if output != [] {
      assert output[1..] == [];
      assert [] + output[0].text == output[0].text;
    }
  }

  /** Every engine output that is passed to the final generator has at most one choice. */
  ghost predicate SingleChoice(agent: Agent) {
    forall k :: agent.engine(k).Some? ==> |agent.engine(k).value| <= 1
  }

  /** The generator over the one final output, its events forwarded while the sequence number is
      tracked. */
  method YieldFinal(agent: Agent, output: seq<Completion>, events0: seq<Event>, seq0: nat, executed: seq<Item>,
                    ids: nat, ghost rules: Rules)
    returns (raised: bool, events: seq<Event>, next: nat)
    requires BetweenItems(rules, events0, seq0, executed, ids)
    ensures var outcome := FinalOf(agent, executed, ids, output);
            events == Opening(executed) + outcome.g.out && next == |events| && raised == outcome.Raised?
  {
    hide AcceptAll, Generate, Start, PrefixEvents;
    FinalRun(rules, events0, executed, ids, agent, output);
    var generated;
    var request := Request(agent.hasTools, false, false);
    generated, raised := GenerateResponseStreamEvents(request, executed, seq0, ids, [output], false, agent.parse);
    assert Flatten([output]) == output by { assert [output][1..] == []; assert output + [] == output; }
    events, next := events0, seq0;
    var i := 0;
    while i < |generated|
      invariant 0 <= i <= |generated|
      invariant events == events0 + generated[..i] && next == seq0 + i
    {
      next := generated[i].num + 1;
      events := events + [generated[i]];
      i := i + 1;
    }
    assert events == events0 + generated;
  }

  /** The calls whose items are finished when a stream ends on client calls: the MCP calls of the
      earlier rounds and the client calls of the last one. */
  function RepliedCalls(agent: Agent, rounds: nat): seq<A.ToolCall>
    requires rounds > 0
  {
    McpCalls(agent, rounds - 1) + CallsOf(agent, rounds, false)
  }

  /** The output that is reported on client calls. */
  function Reported(agent: Agent, rounds: nat, base: nat): Option<seq<Item>>
    requires rounds > 0
  {
    match agent.engine(rounds)
    case None => None
    case Some(cs) => MixedOutput(agent, cs, CallsOf(agent, rounds, false), base + |RepliedCalls(agent, rounds)|)
  }

  /** Only calls of the engine's own parser lead to this end when the request has tools. */
  lemma ReportedNeedsParser(agent: Agent, rounds: nat, base: nat)
    requires rounds > 0 && Reported(agent, rounds, base).Some? && CallsOf(agent, rounds, false) != [] && agent.hasTools
    ensures var cs := agent.engine(rounds).value; cs != [] && cs[0].parsed
  {
    var cs := agent.engine(rounds).value;
    assert Detected(agent, cs) != [];
    TextCallsRaise(agent, cs, base + |RepliedCalls(agent, rounds)|);
  }

  function RoundLimit(agent: Agent): nat { if agent.maxRounds > 0 then agent.maxRounds else 0 }

  /** The loop stops after the first round that is not followed by another one. */
  ghost predicate Stops(agent: Agent, rounds: nat) {
    && rounds <= RoundLimit(agent) && (forall k | 1 <= k < rounds :: Fate(agent, k) == Again)
    && (rounds < RoundLimit(agent) ==> rounds > 0 && Fate(agent, rounds) != Again)
  }

  /** The engine output that is answered from when the loop has stopped; None stands for an exception. */
  function Sought(agent: Agent, rounds: nat): Option<seq<Completion>> {
    if rounds == 0 then agent.engine(1)
    else match Fate(agent, rounds)
      case NoCalls(output) => Some(output)
      case Raises => None
      case _ => agent.engine(rounds + 1)
  }

  /** It is that of the last round when that one detected no calls; a further one is only asked for when
      the round limit is used up. */
  lemma SoughtIs(agent: Agent, rounds: nat)
    requires Stops(agent, rounds) && Sought(agent, rounds).Some? && (rounds > 0 ==> Fate(agent, rounds) != Replied)
    ensures if rounds > 0 && CallsOf(agent, rounds, true) == [] && CallsOf(agent, rounds, false) == []
            then Sought(agent, rounds) == agent.engine(rounds)
            else rounds == RoundLimit(agent) && Sought(agent, rounds) == agent.engine(rounds + 1)
    ensures ShownCalls(agent, rounds) == McpCalls(agent, rounds)
  {
    hide CallsOf, Builds;
    if rounds > 0 { AllStarted(agent, rounds, |CallsOf(agent, rounds, true)|); }
  }

  /** All events of a stream that does not end on client calls. */
  function Whole(agent: Agent, items: seq<Item>, ids: nat, output: Option<seq<Completion>>): seq<Event>
    requires forall i | 0 <= i < |items| :: items[i].ToolItem?
  {
    var es := Opening(items);
    match output
    case None => es + Failure(|es|)
    case Some(cs) =>
      var outcome := FinalOf(agent, items, ids, cs);
      es + outcome.g.out + if outcome.Raised? then Failure(|es| + |outcome.g.out|) else []
  }

  /** Every agentic stream is well numbered, whatever the engine and the tools do. It keeps the whole
      protocol when outputs have one choice, except that on client calls the reported output is never
      the list of finished items. How it ends and every event of it follow from what the engine and the
      tools do; an answer is the items of all MCP calls in order and what the output that is answered
      from says. */
  method StreamAgenticResponse(agent: Agent, base: nat, ghost rules: Rules)
    returns (events: seq<Event>, exit: Exit, rounds: nat)
    ensures WellNumbered(events) && Stops(agent, rounds)
    ensures exit == ClientCalls <==> rounds > 0 && Fate(agent, rounds) == Replied
    ensures exit == ClientCalls ==>
              && Replies(rules, events, Items(RepliedCalls(agent, rounds), base), Reported(agent, rounds, base))
              && (agent.hasTools ==> agent.engine(rounds).value != [] && agent.engine(rounds).value[0].parsed)
    ensures exit != ClientCalls ==>
              var calls := ShownCalls(agent, rounds);
              events == Whole(agent, Items(calls, base), base + |calls|, Sought(agent, rounds))
    ensures SingleChoice(agent) && exit != ClientCalls ==>
              var output := Sought(agent, rounds);
              && Bracketed(rules, events)
              && (exit == Answered <==> output.Some? && !LegacyCalls(agent.hasTools, output.value, agent.parse))
              && (exit == Answered ==> Answers(events, Items(McpCalls(agent, rounds), base), output.value))
  {
    hide AcceptAll, BetweenItems, Bracketed, WellNumbered, Replies, DoneItems, CallsOf, Items, MixedOutput, Shown, Fate,
         Whole, LegacyCalls, Answers;
    NoItems(base);
    events := Prelude(0);
    var next, executed, ids := 2, [], base;
    ghost var items: seq<Item> := [];
    PreludeIsBetween(rules, base);
    var end := Again;
    rounds := 0;
    while rounds < agent.maxRounds && end == Again
      invariant rounds <= RoundLimit(agent) && forall k | 1 <= k < rounds :: Fate(agent, k) == Again
      invariant end == if rounds == 0 then Again else Fate(agent, rounds)
      invariant BetweenItems(rules, events, next, items, ids) || end == Replied
      invariant items == Items(ShownCalls(agent, rounds), base)
      invariant end == Again || end.NoCalls? ==> items == executed && ids == base + |ShownCalls(agent, rounds)|
      invariant end == Again ==> ShownCalls(agent, rounds) == McpCalls(agent, rounds)
      invariant end == Replied ==>
                  && rounds > 0 && CallsOf(agent, rounds, false) != [] && agent.engine(rounds).Some?
                  && Replies(rules, events, Items(RepliedCalls(agent, rounds), base), Reported(agent, rounds, base))
    {
      rounds := rounds + 1;
      ItemsConcat(McpCalls(agent, rounds - 1), Shown(agent, rounds), base);
      end, events, next, executed, ids, items := RunRound(agent, rounds, events, next, executed, ids, rules);
      FateIs(agent, rounds);
    }
    if end == Replied {
      ReplyIs(rules, events, Items(RepliedCalls(agent, rounds), base), Reported(agent, rounds, base));
      if agent.hasTools { ReportedNeedsParser(agent, rounds, base); }
      return events, ClientCalls, rounds;
    }
    var output := if end == Raises then None else if end.NoCalls? then Some(end.output) else agent.engine(rounds + 1);
    BetweenIsLive(rules, events, next, items, ids);
    events, exit := FinishStream(agent, output, events, next, executed, items, ids, rules);
    IdsAfterRaise(agent, items, ids, base + |ShownCalls(agent, rounds)|);
    if output.Some? { SoughtIs(agent, rounds); }
  }

  /** A failure tail has no new ids. */
  lemma IdsAfterRaise(agent: Agent, items: seq<Item>, ids: nat, ids': nat)
    requires forall i | 0 <= i < |items| :: items[i].ToolItem?
    ensures Whole(agent, items, ids, None) == Whole(agent, items, ids', None)
  {
  }

  lemma FateIs(agent: Agent, round: nat)
    ensures Fate(agent, round) == Again ==> Shown(agent, round) == CallsOf(agent, round, true)
    ensures Fate(agent, round) == Replied ==> CallsOf(agent, round, false) != [] && agent.engine(round).Some?
  {
    hide CallsOf, Builds;
    AllStarted(agent, round, |CallsOf(agent, round, true)|);
  }

  /** The final answer, or the failure tail where something was raised. */
  method FinishStream(agent: Agent, output: Option<seq<Completion>>, events0: seq<Event>, seq0: nat,
                      executed: seq<Item>, ghost items: seq<Item>, ids: nat, ghost rules: Rules)
    returns (events: seq<Event>, exit: Exit)
    requires BetweenItems(rules, events0, seq0, items, ids) && (output.Some? ==> items == executed)
    ensures WellNumbered(events) && exit != ClientCalls && events == Whole(agent, items, ids, output)
    ensures (output.Some? ==> |output.value| <= 1) ==>
              && Bracketed(rules, events)
              && (exit == Answered <==> output.Some? && !LegacyCalls(agent.hasTools, output.value, agent.parse))
              && (exit == Answered ==> Answers(events, items, output.value))
  {
    hide AcceptAll, BetweenItems, Bracketed, LegacyCalls, Answers, FinalOf, PrefixEvents, Opening;
    BetweenIsLive(rules, events0, seq0, items, ids);
    var raised, next := output.None?, seq0;
    events := events0;
    if output.Some? {
      FinalRun(rules, events0, items, ids, agent, output.value);
      if |output.value| <= 1 { FinalSays(rules, events0, items, ids, agent, output.value); }
      raised, events, next := YieldFinal(agent, output.value, events, next, executed, ids, rules);
    }
    exit := Answered;
    if raised {
      if output.Some? ==> |output.value| <= 1 { FailureBrackets(rules, events); }
      AppendNumbered(events, Failure(next));
      events := events + Failure(next);
      exit := Exit.Failed;
    } else if |output.value| <= 1 {
      EndedIsBracketed(rules, events);
    }
  }

  lemma ReplyIs(rules: Rules, es: seq<Event>, items: seq<Item>, output: Option<seq<Item>>)
    requires Replies(rules, es, items, output)
    ensures WellNumbered(es) && output.Some?
  {
  }

  lemma EndedIsBracketed(rules: Rules, es: seq<Event>)
    requires AcceptAll(rules, INITIAL, es).Some? && AcceptAll(rules, INITIAL, es).value.phase == Ended
    ensures Bracketed(rules, es)
  {
  }

  lemma PreludeIsBetween(rules: Rules, base: nat)
    ensures BetweenItems(rules, Prelude(0), 2, [], base)
  {
    AcceptTwo(rules, INITIAL, Created(0), InProgress(1));
    assert Opening([]) == Prelude(0);
  }

  lemma BetweenIsLive(rules: Rules, es: seq<Event>, next: nat, items: seq<Item>, ids: nat)
    requires BetweenItems(rules, es, next, items, ids)
    ensures Numbered(es, 0) && Quiet(es) && next == |es|
    ensures (forall i | 0 <= i < |items| :: items[i].ToolItem?) && es == Opening(items)
    ensures AcceptAll(rules, INITIAL, es).Some? && AcceptAll(rules, INITIAL, es).value.phase == Live
  {
    hide AcceptAll;
  }
}
