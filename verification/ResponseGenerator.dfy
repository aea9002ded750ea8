/** The Responses event generator: it turns cumulative engine output into item events. */
module ResponseGenerator {
  import opened KeyOrder
  import opened ResponseEvents
  import A = AssistantOutput

  // ---- Engine output ----------------------------------------------------------------------------

  datatype ToolDelta = ToolDelta(index: int, name: Option<string>, arguments: string)

  datatype SemanticDelta = SemanticDelta(content: string, toolDeltas: seq<ToolDelta>)

  // text and reasoning are cumulative; an empty reasoning text stands for None. parsed tells whether
  // the engine reported parsed tool calls, which only the response built after a tool round looks at.
  datatype Completion = Completion(text: string, reasoning: string, semantic: Option<SemanticDelta>, parsed: bool)

  predicate Effective(c: Completion) {
    c.semantic.Some? && (c.semantic.value.content != [] || c.semantic.value.toolDeltas != [])
  }

  function Flatten(chunks: seq<seq<Completion>>): seq<Completion> {
    if chunks == [] then [] else chunks[0] + Flatten(chunks[1..])
  }

  // ---- Generator state --------------------------------------------------------------------------

  datatype Active =
    | NoActive
    | ActiveMessage(id: ItemId, text: string)
    | ActiveTool(id: ItemId, callId: ItemId, toolIndex: int, name: string, arguments: string)

  datatype Gen = Gen(
    num: nat,                 // next sequence number
    ids: nat,                 // next unused uuid
    rid: ItemId,              // id of the reasoning item
    mid: ItemId,              // id of the plain-text message
    text: A.TextState,
    reasoning: string,
    completed: seq<Item>,
    outputIndex: nat,         // used by reasoning and plain text
    semantic: bool,
    active: Active,
    activeIndex: nat,         // used by semantic items
    reasoningEmitted: bool,
    messageOpen: bool,
    out: seq<Event>)

  function Emit(g: Gen, es: seq<Event>): Gen { g.(num := g.num + |es|, out := g.out + es) }

  function PrefixEvents(items: seq<Item>, index: nat, num: nat): seq<Event>
    requires forall i | 0 <= i < |items| :: items[i].ToolItem?
  {
    if items == [] then []
    else
      var es := ToolCallEvents(items[0], index, num);
      es + PrefixEvents(items[1..], index + 1, num + |es|)
  }

  // whether tools are declared, and which leading events this generator is asked to emit
  datatype Request = Request(hasTools: bool, prelude: bool, prefixEvents: bool)

  function Start(request: Request, prefix: seq<Item>, num: nat, base: nat): Gen
    requires forall i | 0 <= i < |prefix| :: prefix[i].ToolItem?
  {
    var head := if request.prelude then Prelude(num) else [];
    var calls := if request.prefixEvents then PrefixEvents(prefix, 0, num + |head|) else [];
    Gen(num + |head| + |calls|, base + 2, Fresh(base), Fresh(base + 1), A.Initial(request.hasTools), [],
        prefix, |prefix|,
        false, NoActive, |prefix|, false, false, head + calls)
  }

  // ---- One completion ---------------------------------------------------------------------------

  function OnReasoning(g: Gen, reasoning: string): Gen {
    if reasoning == [] || reasoning == g.reasoning then g
    else
      var g1 := if g.reasoningEmitted then g
                else Emit(g, [ItemAdded(g.num, g.outputIndex, ReasoningItem(g.rid, []))]).(reasoningEmitted := true);
      var delta := A.Suffix(reasoning, g.reasoning);
      var g2 := if delta == [] then g1 else Emit(g1, [TextDelta(g1.num, g.outputIndex, g.rid, 0, delta)]);
      g2.(reasoning := reasoning)
  }

  function ActiveItem(active: Active): Item
    requires !active.NoActive?
  {
    match active
    case ActiveMessage(id, text) => MessageItem(id, text)
    case ActiveTool(id, callId, _, name, arguments) => ToolItem(id, callId, name, arguments)
  }

  function CloseActive(g: Gen): Gen
    requires !g.active.NoActive?
  {
    var item := ActiveItem(g.active);
    Emit(g,
         if item.MessageItem? then CloseMessage(g.num, g.activeIndex, item.id, item.text)
         else CloseTool(g.num, g.activeIndex, item))
      .(completed := g.completed + [item], active := NoActive, activeIndex := g.activeIndex + 1)
  }

  function OpenTool(g: Gen, toolIndex: int, name: string): Gen {
    var id, callId := Fresh(g.ids), Fresh(g.ids + 1);
    Emit(g, [ItemAdded(g.num, g.activeIndex, ToolItem(id, callId, name, []))])
      .(ids := g.ids + 2, active := ActiveTool(id, callId, toolIndex, name, []))
  }

  function AddArguments(g: Gen, delta: string): Gen
    requires g.active.ActiveTool?
  {
    if delta == [] then g
    else
      var g1 := Emit(g, [ArgsDelta(g.num, g.activeIndex, g.active.id, delta)]);
      g1.(active := g.active.(arguments := g.active.arguments + delta))
  }

  function OnToolDelta(g: Gen, d: ToolDelta): Gen {
    var leaves := g.active.ActiveMessage? || (g.active.ActiveTool? && g.active.toolIndex != d.index);
    var g1 := if leaves then CloseActive(g) else g;
    if g1.active.ActiveTool? then AddArguments(g1, d.arguments)
    else if d.name.None? then g1
    else AddArguments(OpenTool(g1, d.index, d.name.value), d.arguments)
  }

  function OnToolDeltas(g: Gen, ds: seq<ToolDelta>): Gen
    decreases ds
  {
    if ds == [] then g else OnToolDeltas(OnToolDelta(g, ds[0]), ds[1..])
  }

  function StartMessage(g: Gen): Gen {
    var g1 := Emit(g, OpenMessage(g.num, g.activeIndex, Fresh(g.ids)));
    g1.(ids := g.ids + 1, active := ActiveMessage(Fresh(g.ids), []))
  }

  /** One more delta of the open message. */
  function AddText(g: Gen, content: string): Gen
    requires g.active.ActiveMessage?
  {
    var g1 := Emit(g, [TextDelta(g.num, g.activeIndex, g.active.id, 0, content)]);
    g1.(active := g.active.(text := g.active.text + content))
  }

  function OnContent(g: Gen, content: string): Gen {
    if content == [] then g
    else
      var g1 := if g.active.ActiveTool? then CloseActive(g) else g;
      var g2 := if g1.active.ActiveMessage? then g1 else StartMessage(g1);
      AddText(g2, content)
  }

  /** Ends the reasoning item among the semantic items. */
  function EndReasoning(g: Gen): Gen {
    if !g.reasoningEmitted then g
    else
      var item := ReasoningItem(g.rid, g.reasoning);
      Emit(g, [ItemDone(g.num, g.activeIndex, item)])
        .(completed := g.completed + [item], activeIndex := g.activeIndex + 1, reasoningEmitted := false)
  }

  function OnSemantic(g: Gen, s: SemanticDelta): Gen {
    OnContent(OnToolDeltas(EndReasoning(g.(semantic := true)), s.toolDeltas), s.content)
  }

  /** Ends the reasoning item ahead of plain text; it stays marked as emitted. */
  function EndPlainReasoning(g: Gen): Gen {
    if !g.reasoningEmitted then g
    else Emit(g, [ItemDone(g.num, g.outputIndex, ReasoningItem(g.rid, g.reasoning))]).(outputIndex := g.outputIndex + 1)
  }

  function StartPlain(g: Gen): Gen {
    var g1 := EndPlainReasoning(g);
    Emit(g1, OpenMessage(g1.num, g1.outputIndex, g1.mid)).(messageOpen := true)
  }

  function OnPlain(g: Gen, delta: string): Gen {
    if delta == [] then g
    else
      var g1 := if g.messageOpen then g else StartPlain(g);
      Emit(g1, [TextDelta(g1.num, g1.outputIndex, g1.mid, 0, delta)])
  }

  function Step(g: Gen, c: Completion): Gen {
    var g1 := OnReasoning(g, c.reasoning);
    var g2 := g1.(text := A.Next(g1.text, c.text));
    if Effective(c) then OnSemantic(g2, c.semantic.value) else OnPlain(g2, A.Delta(g1.text, c.text))
  }

  function Steps(g: Gen, cs: seq<Completion>): Gen
    decreases cs
  {
    if cs == [] then g else Steps(Step(g, cs[0]), cs[1..])
  }

  // ---- The end of the stream --------------------------------------------------------------------

  // Failed: the engine broke off and failure events were emitted. Raised: legacy tool-call text was
  // found, and the generator raises without a terminal event.
  datatype Outcome = Finished(g: Gen, output: seq<Item>) | Failed(g: Gen) | Raised(g: Gen)

  function FinishSemantic(g: Gen): Gen {
    var g1 := EndReasoning(g);
    if g1.active.NoActive? then g1 else CloseActive(g1)
  }

  function WholeMessage(num: nat, index: nat, id: ItemId, text: string): seq<Event> {
    OpenMessage(num, index, id) + [TextDelta(num + 2, index, id, 0, text)] + CloseMessage(num + 3, index, id, text)
  }

  function EndPlain(g: Gen, deferred: string): Gen {
    var g1 :=
      if deferred != [] && !g.messageOpen then Emit(g, WholeMessage(g.num, g.outputIndex, g.mid, deferred)) else g;
    if g1.messageOpen then Emit(g1, CloseMessage(g1.num, g1.outputIndex, g1.mid, g1.text.text)) else g1
  }

  function PlainOutput(g: Gen, deferred: string): seq<Item> {
    g.completed
    + (if g.reasoningEmitted then [ReasoningItem(g.rid, g.reasoning)] else [])
    + (if g.messageOpen || deferred != []
       then [MessageItem(g.mid, if deferred != [] then deferred else g.text.text)]
       else [])
  }

  function Complete(g: Gen, output: seq<Item>): Outcome { Finished(Emit(g, [Completed(g.num, output)]), output) }

  function Finish(g: Gen, parse: A.Parser): Outcome {
    if g.semantic then
      var g1 := FinishSemantic(g);
      Complete(g1, g1.completed)
    else
      var g1 := if g.reasoningEmitted && !g.messageOpen then EndPlainReasoning(g) else g;
      if A.Normalized(parse, g.text.text, g.text.hasTools).CallsOutput? then Raised(g1)
      else
        var deferred := A.Deferred(parse, g.text);
        Complete(EndPlain(g1, deferred), PlainOutput(g1, deferred))
  }

  function Generate(start: Gen, cs: seq<Completion>, engineFails: bool, parse: A.Parser): Outcome {
    var g := Steps(start, cs);
    if engineFails then Failed(Emit(g, Failure(g.num))) else Finish(g, parse)
  }

  // ---- The generator ----------------------------------------------------------------------------

  class ResponseEventStream {
    const rid: ItemId
    const mid: ItemId
    const textState: A.AssistantOutputStreamState
    var num: nat
    var ids: nat
    var reasoning: string
    var completed: seq<Item>
    var outputIndex: nat
    var semantic: bool
    var active: Active
    var activeIndex: nat
    var reasoningEmitted: bool
    var messageOpen: bool
    var out: seq<Event>

    ghost function State(): Gen
      reads this, textState
    {
      Gen(num, ids, rid, mid, textState.State(), reasoning, completed, outputIndex, semantic, active, activeIndex,
          reasoningEmitted, messageOpen, out)
    }

    constructor (request: Request, prefix: seq<Item>, initial: nat, base: nat)
      requires forall i | 0 <= i < |prefix| :: prefix[i].ToolItem?
      ensures State() == Start(request, prefix, initial, base) && fresh(textState)
    {
      hide PrefixEvents, Prelude, A.Initial;
      num, ids, rid, mid := initial, base + 2, Fresh(base), Fresh(base + 1);
      textState := new A.AssistantOutputStreamState(request.hasTools);
      reasoning, completed, outputIndex, semantic := [], prefix, |prefix|, false;
      active, activeIndex, reasoningEmitted, messageOpen, out := NoActive, |prefix|, false, false, [];
      new;
      if request.prelude { Yield(Prelude(num)); }
      if request.prefixEvents { YieldPrefix(prefix); }
      assert State() == Start(request, prefix, initial, base);
    }

    method YieldPrefix(prefix: seq<Item>)
      requires forall i | 0 <= i < |prefix| :: prefix[i].ToolItem?
      modifies this`num, this`out
      ensures State() == Emit(old(State()), PrefixEvents(prefix, 0, old(num)))
    {
      hide ToolCallEvents;
      ghost var all := PrefixEvents(prefix, 0, num);
      ghost var done: seq<Event> := [];
      var i := 0;
      while i < |prefix|
        invariant 0 <= i <= |prefix|
        invariant State() == Emit(old(State()), done)
        invariant done + PrefixEvents(prefix[i..], i, num) == all
      {
        assert prefix[i..][1..] == prefix[i + 1..];
        var events, _ := BuildFunctionToolCallEvents(prefix[i], i, num);
        assert PrefixEvents(prefix[i..], i, num) == events + PrefixEvents(prefix[i + 1..], i + 1, num + |events|);
        Yield(events);
        done := done + events;
        i := i + 1;
      }
      assert done == all;
    }

    method Yield(es: seq<Event>)
      modifies this`num, this`out
      ensures State() == Emit(old(State()), es)
    {
      num, out := num + |es|, out + es;
    }

    method HandleReasoning(text: string)
      modifies this`num, this`out, this`reasoning, this`reasoningEmitted
      ensures State() == OnReasoning(old(State()), text)
    {
      if text != [] && text != reasoning {
        if !reasoningEmitted {
          Yield([ItemAdded(num, outputIndex, ReasoningItem(rid, []))]);
          reasoningEmitted := true;
        }
        var delta := A.Suffix(text, reasoning);
        if delta != [] { Yield([TextDelta(num, outputIndex, rid, 0, delta)]); }
        reasoning := text;
      }
    }

    method CloseActiveItem()
      requires !active.NoActive?
      modifies this`num, this`out, this`completed, this`active, this`activeIndex
      ensures State() == CloseActive(old(State()))
    {
      var item := ActiveItem(active);
      if item.MessageItem? {
        Yield(CloseMessage(num, activeIndex, item.id, item.text));
      } else {
        Yield(CloseTool(num, activeIndex, item));
      }
      completed, active, activeIndex := completed + [item], NoActive, activeIndex + 1;
    }

    method OpenToolItem(toolIndex: int, name: string)
      modifies this`num, this`out, this`active, this`ids
      ensures State() == OpenTool(old(State()), toolIndex, name)
    {
      var id, callId := Fresh(ids), Fresh(ids + 1);
      ids := ids + 2;
      Yield([ItemAdded(num, activeIndex, ToolItem(id, callId, name, []))]);
      active := ActiveTool(id, callId, toolIndex, name, []);
    }

    method OpenMessageItem()
      modifies this`num, this`out, this`active, this`ids
      ensures State() == StartMessage(old(State()))
    {
      var id := Fresh(ids);
      ids := ids + 1;
      Yield(OpenMessage(num, activeIndex, id));
      active := ActiveMessage(id, []);
    }

    method HandleToolDelta(d: ToolDelta)
      modifies this`num, this`out, this`completed, this`active, this`activeIndex, this`ids
      ensures State() == OnToolDelta(old(State()), d)
    {
      if active.ActiveMessage? { CloseActiveItem(); }
      if active.ActiveTool? && active.toolIndex != d.index { CloseActiveItem(); }
      if !active.ActiveTool? {
        if d.name.None? { return; }
        OpenToolItem(d.index, d.name.value);
      }
      if d.arguments != [] {
        Yield([ArgsDelta(num, activeIndex, active.id, d.arguments)]);
        active := active.(arguments := active.arguments + d.arguments);
      }
    }

    method HandleContent(content: string)
      modifies this`num, this`out, this`completed, this`active, this`activeIndex, this`ids
      ensures State() == OnContent(old(State()), content)
    {
      if content != [] {
        if active.ActiveTool? { CloseActiveItem(); }
        if !active.ActiveMessage? { OpenMessageItem(); }
        Yield([TextDelta(num, activeIndex, active.id, 0, content)]);
        active := active.(text := active.text + content);
      }
    }

    method CloseReasoning()
      modifies this`num, this`out, this`completed, this`activeIndex, this`reasoningEmitted
      ensures State() == EndReasoning(old(State()))
    {
      if reasoningEmitted {
        var item := ReasoningItem(rid, reasoning);
        Yield([ItemDone(num, activeIndex, item)]);
        completed, activeIndex, reasoningEmitted := completed + [item], activeIndex + 1, false;
      }
    }

    method HandlePlain(delta: Option<string>)
      modifies this`num, this`out, this`outputIndex, this`messageOpen
      ensures State() == OnPlain(old(State()), if delta.Some? then delta.value else [])
    {
      if delta.Some? && delta.value != [] {
        if !messageOpen {
          if reasoningEmitted {
            Yield([ItemDone(num, outputIndex, ReasoningItem(rid, reasoning))]);
            outputIndex := outputIndex + 1;
          }
          Yield(OpenMessage(num, outputIndex, mid));
          messageOpen := true;
        }
        Yield([TextDelta(num, outputIndex, mid, 0, delta.value)]);
      }
    }

    method HandleCompletion(c: Completion)
      modifies this, textState
      ensures State() == Step(old(State()), c)
    {
      HandleReasoning(c.reasoning);
      var delta := textState.Update(c.text, None);
      if Effective(c) {
        semantic := true;
        CloseReasoning();
        var deltas := c.semantic.value.toolDeltas;
        ghost var all := OnToolDeltas(State(), deltas);
        var i := 0;
        while i < |deltas|
          invariant 0 <= i <= |deltas|
          invariant OnToolDeltas(State(), deltas[i..]) == all
        {
          assert deltas[i..][1..] == deltas[i + 1..];
          HandleToolDelta(deltas[i]);
          i := i + 1;
        }
        HandleContent(c.semantic.value.content);
      } else {
        HandlePlain(delta);
      }
    }

    /** The end of the stream; None stands for the raised RuntimeError. */
    method Close(parse: A.Parser) returns (output: Option<seq<Item>>)
      modifies this
      ensures Finish(old(State()), parse) == if output.Some? then Finished(State(), output.value) else Raised(State())
    {
      hide WholeMessage, CloseMessage, A.Normalized, A.Deferred;
      var items := completed;
      if semantic {
        CloseReasoning();
        if !active.NoActive? { CloseActiveItem(); }
        items := completed;
      } else {
        if reasoningEmitted && !messageOpen {
          Yield([ItemDone(num, outputIndex, ReasoningItem(rid, reasoning))]);
          outputIndex := outputIndex + 1;
        }
        var normalized, deferred := textState.Finalize(parse);
        if normalized.CallsOutput? { return None; }
        if deferred.Some? && !messageOpen {
          Yield(WholeMessage(num, outputIndex, mid, deferred.value));
        }
        if messageOpen {
          Yield(CloseMessage(num, outputIndex, mid, textState.text));
        }
        items := items + (if reasoningEmitted then [ReasoningItem(rid, reasoning)] else []);
        items := items
          + (if messageOpen || deferred.Some?
             then [MessageItem(mid, if deferred.Some? then deferred.value else textState.text)]
             else []);
      }
      Yield([Completed(num, items)]);
      output := Some(items);
    }
  }

  /** Runs the generator over an engine stream that either ends or breaks off. */
  method GenerateResponseStreamEvents(request: Request, prefix: seq<Item>, num: nat, base: nat,
                                      chunks: seq<seq<Completion>>, engineFails: bool, parse: A.Parser)
    returns (events: seq<Event>, raised: bool)
    requires forall i | 0 <= i < |prefix| :: prefix[i].ToolItem?
    ensures var outcome := Generate(Start(request, prefix, num, base), Flatten(chunks), engineFails, parse);
            events == outcome.g.out && raised == outcome.Raised?
  {
    hide Step, Finish, Start;
    var stream := new ResponseEventStream(request, prefix, num, base);
    ghost var end := Steps(stream.State(), Flatten(chunks));
    var i := 0;
    while i < |chunks|
      invariant 0 <= i <= |chunks|
      invariant fresh(stream) && fresh(stream.textState)
      invariant Steps(stream.State(), Flatten(chunks[i..])) == end
    {
      var completions := chunks[i];
      assert chunks[i..][1..] == chunks[i + 1..];
      ghost var later := Flatten(chunks[i + 1..]);
      assert completions[0..] == completions;
      var j := 0;
      while j < |completions|
        invariant 0 <= j <= |completions|
        invariant Steps(stream.State(), completions[j..] + later) == end
      {
        assert (completions[j..] + later)[1..] == completions[j + 1..] + later;
        stream.HandleCompletion(completions[j]);
        j := j + 1;
      }
      assert completions[j..] + later == later;
      i := i + 1;
    }
    raised := false;
    if engineFails {
      stream.Yield(Failure(stream.num));
    } else {
      var output := stream.Close(parse);
      raised := output.None?;
    }
    events := stream.out;
  }
}
