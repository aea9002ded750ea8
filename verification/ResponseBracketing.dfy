/** The event generator keeps the event protocol: numbering on every run, bracketing on regular runs. */
module ResponseBracketing {
  import opened ResponseEvents
  import opened ResponseProtocol
  import opened ResponseGenerator
  import A = AssistantOutput

  // ---- Numbering, on every run ------------------------------------------------------------------

  predicate Numbered(es: seq<Event>, num: nat) { forall i | 0 <= i < |es| :: es[i].num == num + i }

  predicate Quiet(es: seq<Event>) { forall i | 0 <= i < |es| :: !Terminal(es[i]) }

  /** Exactly one terminal event, and it is the last. */
  predicate Closed(es: seq<Event>) { es != [] && Terminal(es[|es| - 1]) && Quiet(es[..|es| - 1]) }

  predicate Running(g: Gen, num: nat) { Ongoing(g.out, g.num, num) }

  predicate Ongoing(out: seq<Event>, next: nat, num: nat) { next == num + |out| && Numbered(out, num) && Quiet(out) }

  lemma EmitRuns(g: Gen, es: seq<Event>, num: nat)
    requires Running(g, num) && Numbered(es, g.num) && Quiet(es)
    ensures Running(Emit(g, es), num)
  {
  }

  lemma CloseActiveRuns(g: Gen, num: nat)
    requires Running(g, num) && !g.active.NoActive?
    ensures Running(CloseActive(g), num)
  {
    hide Ongoing;
    var item := ActiveItem(g.active);
    EmitRuns(g,
             if item.MessageItem? then CloseMessage(g.num, g.activeIndex, item.id, item.text)
             else CloseTool(g.num, g.activeIndex, item),
             num);
  }

  lemma OpenToolRuns(g: Gen, toolIndex: int, name: string, num: nat)
    requires Running(g, num)
    ensures Running(OpenTool(g, toolIndex, name), num)
  {
    hide Ongoing;
    EmitRuns(g, [ItemAdded(g.num, g.activeIndex, ToolItem(Fresh(g.ids), Fresh(g.ids + 1), name, []))], num);
  }

  lemma AddArgumentsRuns(g: Gen, delta: string, num: nat)
    requires Running(g, num) && g.active.ActiveTool?
    ensures Running(AddArguments(g, delta), num)
  {
    hide Ongoing;
    EmitRuns(g, [ArgsDelta(g.num, g.activeIndex, g.active.id, delta)], num);
  }

  lemma StartMessageRuns(g: Gen, num: nat)
    requires Running(g, num)
    ensures Running(StartMessage(g), num)
  {
    hide Ongoing;
    EmitRuns(g, OpenMessage(g.num, g.activeIndex, Fresh(g.ids)), num);
  }

  lemma {:induction false} ArgDeltasNumbered(args: string, num: nat, index: nat, id: ItemId)
    ensures Numbered(ArgDeltas(args, num, index, id), num) && Quiet(ArgDeltas(args, num, index, id))
    decreases |args|
  {
    if |args| > CHUNK { ArgDeltasNumbered(args[CHUNK..], num + 1, index, id); }
  }

  lemma ToolCallNumbered(item: Item, index: nat, num: nat)
    requires item.ToolItem?
    ensures Numbered(ToolCallEvents(item, index, num), num) && Quiet(ToolCallEvents(item, index, num))
  {
    hide ArgDeltas;
    ArgDeltasNumbered(item.arguments, num + 1, index, item.id);
  }

  lemma {:induction false} PrefixNumbered(items: seq<Item>, index: nat, num: nat)
    requires forall i | 0 <= i < |items| :: items[i].ToolItem?
    ensures Numbered(PrefixEvents(items, index, num), num) && Quiet(PrefixEvents(items, index, num))
    decreases items
  {
    hide ToolCallEvents;
    if items != [] {
      ToolCallNumbered(items[0], index, num);
      PrefixNumbered(items[1..], index + 1, num + |ToolCallEvents(items[0], index, num)|);
    }
  }

  lemma StartRuns(request: Request, prefix: seq<Item>, num: nat, base: nat)
    requires forall i | 0 <= i < |prefix| :: prefix[i].ToolItem?
    ensures Running(Start(request, prefix, num, base), num)
  {
    hide PrefixEvents;
    PrefixNumbered(prefix, 0, num + if request.prelude then 2 else 0);
  }

  lemma ToolDeltaRuns(g: Gen, d: ToolDelta, num: nat)
    requires Running(g, num)
    ensures Running(OnToolDelta(g, d), num)
  {
    hide Running, CloseActive, OpenTool, AddArguments;
    var g1 := g;
    if g.active.ActiveMessage? || (g.active.ActiveTool? && g.active.toolIndex != d.index) {
      CloseActiveRuns(g, num);
      g1 := CloseActive(g);
    }
    if g1.active.ActiveTool? {
      AddArgumentsRuns(g1, d.arguments, num);
    } else if d.name.Some? {
      OpenToolRuns(g1, d.index, d.name.value, num);
      OpenToolActive(g1, d.index, d.name.value);
      AddArgumentsRuns(OpenTool(g1, d.index, d.name.value), d.arguments, num);
    }
  }

  lemma OpenToolActive(g: Gen, toolIndex: int, name: string)
    ensures OpenTool(g, toolIndex, name).active.ActiveTool?
  {
  }

  lemma {:induction false} ToolDeltasRun(g: Gen, ds: seq<ToolDelta>, num: nat)
    requires Running(g, num)
    ensures Running(OnToolDeltas(g, ds), num)
    decreases ds
  {
    hide OnToolDelta;
    if ds != [] {
      ToolDeltaRuns(g, ds[0], num);
      ToolDeltasRun(OnToolDelta(g, ds[0]), ds[1..], num);
    }
  }

  lemma ContentRuns(g: Gen, content: string, num: nat)
    requires Running(g, num)
    ensures Running(OnContent(g, content), num)
  {
    hide Ongoing, CloseActive, StartMessage;
    if content != [] {
      var g1 := if g.active.ActiveTool? then CloseActive(g) else g;
      if g.active.ActiveTool? { CloseActiveRuns(g, num); }
      var g2 := if g1.active.ActiveMessage? then g1 else StartMessage(g1);
      if !g1.active.ActiveMessage? { StartMessageRuns(g1, num); StartMessageActive(g1); }
      EmitRuns(g2, [TextDelta(g2.num, g2.activeIndex, g2.active.id, 0, content)], num);
    }
  }

  lemma StartMessageActive(g: Gen)
    ensures StartMessage(g).active.ActiveMessage?
  {
  }

  lemma EndReasoningRuns(g: Gen, num: nat)
    requires Running(g, num)
    ensures Running(EndReasoning(g), num) && Running(EndPlainReasoning(g), num)
  {
    hide Ongoing;
    EmitRuns(g, [ItemDone(g.num, g.activeIndex, ReasoningItem(g.rid, g.reasoning))], num);
    EmitRuns(g, [ItemDone(g.num, g.outputIndex, ReasoningItem(g.rid, g.reasoning))], num);
  }

  lemma EndPlainRuns(g: Gen, deferred: string, num: nat)
    requires Running(g, num)
    ensures Running(EndPlain(g, deferred), num)
  {
    hide Ongoing;
    var g1 :=
      if deferred != [] && !g.messageOpen then Emit(g, WholeMessage(g.num, g.outputIndex, g.mid, deferred)) else g;
    EmitRuns(g, WholeMessage(g.num, g.outputIndex, g.mid, deferred), num);
    EmitRuns(g1, CloseMessage(g1.num, g1.outputIndex, g1.mid, g1.text.text), num);
  }

  lemma ReasoningRuns(g: Gen, reasoning: string, num: nat)
    requires Running(g, num)
    ensures Running(OnReasoning(g, reasoning), num)
  {
  }

  lemma PlainRuns(g: Gen, delta: string, num: nat)
    requires Running(g, num)
    ensures Running(OnPlain(g, delta), num)
  {
    hide Ongoing, EndPlainReasoning;
    if delta != [] {
      var g1 := g;
      if !g.messageOpen {
        EndReasoningRuns(g, num);
        var g0 := EndPlainReasoning(g);
        EmitRuns(g0, OpenMessage(g0.num, g0.outputIndex, g0.mid), num);
        g1 := StartPlain(g);
      }
      EmitRuns(g1, [TextDelta(g1.num, g1.outputIndex, g1.mid, 0, delta)], num);
    }
  }

  lemma StepRuns(g: Gen, c: Completion, num: nat)
    requires Running(g, num)
    ensures Running(Step(g, c), num)
  {
    hide Ongoing, OnReasoning, EndReasoning, OnToolDeltas, OnContent, OnPlain, A.Next, A.Delta;
    ReasoningRuns(g, c.reasoning, num);
    var g1 := OnReasoning(g, c.reasoning);
    var g2 := g1.(text := A.Next(g1.text, c.text));
    if Effective(c) {
      EndReasoningRuns(g2.(semantic := true), num);
      var g3 := EndReasoning(g2.(semantic := true));
      ToolDeltasRun(g3, c.semantic.value.toolDeltas, num);
      ContentRuns(OnToolDeltas(g3, c.semantic.value.toolDeltas), c.semantic.value.content, num);
    } else {
      PlainRuns(g2, A.Delta(g1.text, c.text), num);
    }
  }

  lemma {:induction false} StepsRun(g: Gen, cs: seq<Completion>, num: nat)
    requires Running(g, num)
    ensures Running(Steps(g, cs), num)
    decreases cs
  {
    hide Step, Running;
    if cs != [] {
      StepRuns(g, cs[0], num);
      StepsRun(Step(g, cs[0]), cs[1..], num);
    }
  }

  lemma FinishRuns(g: Gen, parse: A.Parser, num: nat)
    requires Running(g, num)
    ensures var outcome := Finish(g, parse);
            && Numbered(outcome.g.out, num) && outcome.g.num == num + |outcome.g.out|
            && (if outcome.Raised? then Quiet(outcome.g.out) else Closed(outcome.g.out))
  {
    hide A.Normalized, A.Deferred, PlainOutput, EndPlain, EndReasoning, EndPlainReasoning, CloseActive;
    EndReasoningRuns(g, num);
    if g.semantic {
      var g1 := EndReasoning(g);
      if !g1.active.NoActive? { CloseActiveRuns(g1, num); }
    } else {
      var g1 := if g.reasoningEmitted && !g.messageOpen then EndPlainReasoning(g) else g;
      EndPlainRuns(g1, A.Deferred(parse, g.text), num);
    }
  }

  /** Every run, regular or not, numbers its events from the given number on and emits exactly one
      terminal event, the last one, unless it raises. */
  lemma EveryRunIsNumbered(start: Gen, cs: seq<Completion>, engineFails: bool, parse: A.Parser, num: nat)
    requires Running(start, num)
    ensures var outcome := Generate(start, cs, engineFails, parse);
            && Numbered(outcome.g.out, num) && outcome.g.num == num + |outcome.g.out|
            && (if outcome.Raised? then Quiet(outcome.g.out) else Closed(outcome.g.out))
  {
    hide Steps, Finish;
    StepsRun(start, cs, num);
    FinishRuns(Steps(start, cs), parse, num);
  }
}
