/** On a regular run the generator is a refinement of the event protocol. */
module ResponseRegularRuns {
  import opened KeyOrder
  import opened ResponseEvents
  import opened ResponseProtocol
  import opened ResponseGenerator
  import A = AssistantOutput

  // ---- Regular runs -----------------------------------------------------------------------------

  datatype Mode = Unstarted | SemanticMode | PlainMode

  /** What an observer of the engine output remembers. */
  datatype Watch = Watch(text: A.TextState, reasoning: string, mode: Mode)

  function Watching(hasTools: bool): Watch { Watch(A.Initial(hasTools), [], Unstarted) }

  function Watched(w: Watch, c: Completion): Watch {
    Watch(A.Next(w.text, c.text),
          if c.reasoning == [] then w.reasoning else c.reasoning,
          if Effective(c) then SemanticMode else if A.Delta(w.text, c.text) != [] then PlainMode else w.mode)
  }

  /** Text grows; reasoning grows until answer output starts and is frozen then. */
  ghost predicate TameStep(w: Watch, c: Completion) {
    && w.text.text <= c.text
    && (c.reasoning == [] || c.reasoning == w.reasoning || (w.mode == Unstarted && w.reasoning <= c.reasoning))
  }

  /** Semantic deltas and streamed plain text do not mix. */
  predicate UnmixedStep(w: Watch, c: Completion) {
    if Effective(c) then w.mode != PlainMode else A.Delta(w.text, c.text) == [] || w.mode != SemanticMode
  }

  ghost predicate RegularStep(w: Watch, c: Completion) { TameStep(w, c) && UnmixedStep(w, c) }

  ghost predicate Regular(w: Watch, cs: seq<Completion>)
    decreases cs
  {
    cs == [] || (RegularStep(w, cs[0]) && Regular(Watched(w, cs[0]), cs[1..]))
  }

  // ---- Accepted groups of events ----------------------------------------------------------------

  lemma AcceptTwo(rules: Rules, p: Proto, a: Event, b: Event)
    ensures AcceptAll(rules, p, [a, b]) ==
              match Accept(rules, p, a) case None => None case Some(q) => Accept(rules, q, b)
  {
    hide Accept;
    assert [a, b][1..] == [b];
    match Accept(rules, p, a)
    case None =>
    case Some(q) => AcceptOne(rules, q, b);
  }

  lemma AcceptOpenMessage(rules: Rules, p: Proto, id: ItemId)
    requires p.phase == Live && p.open == Nothing && (id.Fresh? ==> IdUnused(p.done, id))
    ensures AcceptAll(rules, p, OpenMessage(p.num, p.index, id)) ==
              Some(p.(num := p.num + 2, open := MessageText(id, [])))
  {
    hide AcceptAll;
    var es := OpenMessage(p.num, p.index, id);
    AcceptTwo(rules, p, es[0], es[1]);
    assert es == [es[0], es[1]];
  }

  /** The message closes exactly when its text is spelled by its deltas as the rules demand. */
  lemma AcceptCloseMessage(rules: Rules, p: Proto, text: string)
    requires p.phase == Live && p.open.MessageText?
    ensures AcceptAll(rules, p, CloseMessage(p.num, p.index, p.open.id, text))
         == if Spelled(rules, p.open.text, text)
            then Some(p.(num := p.num + 3, open := Nothing, index := p.index + 1,
                         done := p.done + [MessageItem(p.open.id, text)]))
            else None
  {
    hide AcceptAll, Spelled;
    var es := CloseMessage(p.num, p.index, p.open.id, text);
    AcceptConcat(rules, p, [es[0]], [es[1], es[2]]);
    AcceptOne(rules, p, es[0]);
    assert es == [es[0]] + [es[1], es[2]];
    if Spelled(rules, p.open.text, text) {
      var q := Accept(rules, p, es[0]).value;
      AcceptTwo(rules, q, es[1], es[2]);
    }
  }

  lemma AcceptCloseTool(rules: Rules, p: Proto)
    requires p.phase == Live && p.open.ToolArgs?
    ensures var item := ToolItem(p.open.id, p.open.callId, p.open.name, p.open.args);
            AcceptAll(rules, p, CloseTool(p.num, p.index, item)) ==
              Some(p.(num := p.num + 2, open := Nothing, index := p.index + 1, done := p.done + [item]))
  {
    hide AcceptAll;
    var es := CloseTool(p.num, p.index, ToolItem(p.open.id, p.open.callId, p.open.name, p.open.args));
    AcceptTwo(rules, p, es[0], es[1]);
    assert es == [es[0], es[1]];
  }

  lemma {:induction false} AcceptArgDeltas(rules: Rules, p: Proto, args: string)
    requires p.phase == Live && p.open.ToolArgs?
    ensures var es := ArgDeltas(args, p.num, p.index, p.open.id);
            AcceptAll(rules, p, es) == Some(p.(num := p.num + |es|, open := p.open.(args := p.open.args + args)))
    decreases |args|
  {
    hide AcceptAll;
    if |args| <= CHUNK {
      AcceptOne(rules, p, ArgsDelta(p.num, p.index, p.open.id, args));
    } else {
      var e := ArgsDelta(p.num, p.index, p.open.id, args[..CHUNK]);
      AcceptOne(rules, p, e);
      var q := p.(num := p.num + 1, open := p.open.(args := p.open.args + args[..CHUNK]));
      AcceptArgDeltas(rules, q, args[CHUNK..]);
      AcceptConcat(rules, p, [e], ArgDeltas(args[CHUNK..], q.num, q.index, q.open.id));
      assert p.open.args + args == p.open.args + args[..CHUNK] + args[CHUNK..];
    }
  }

  lemma AcceptToolCall(rules: Rules, p: Proto, item: Item)
    requires p.phase == Live && p.open == Nothing && item.ToolItem? && (item.id.Fresh? ==> IdUnused(p.done, item.id))
    ensures var es := ToolCallEvents(item, p.index, p.num);
            AcceptAll(rules, p, es) == Some(p.(num := p.num + |es|, index := p.index + 1, done := p.done + [item]))
  {
    hide AcceptAll, ArgDeltas, IdUnused;
    var added := ItemAdded(p.num, p.index, item);
    var p1 := p.(num := p.num + 1, open := ToolArgs(item.id, item.callId, item.name, []));
    AcceptOne(rules, p, added);
    AcceptArgDeltas(rules, p1, item.arguments);
    var deltas := ArgDeltas(item.arguments, p1.num, p1.index, item.id);
    assert [] + item.arguments == item.arguments;
    var p2 := p1.(num := p1.num + |deltas|, open := ToolArgs(item.id, item.callId, item.name, item.arguments));
    AcceptCloseTool(rules, p2);
    AcceptConcat(rules, p, [added], deltas);
    AcceptConcat(rules, p, [added] + deltas, CloseTool(p2.num, p2.index, item));
  }

  /** No two items share a fresh id. */
  ghost predicate Distinct(items: seq<Item>) {
    forall i, j | 0 <= i < j < |items| :: items[i].id != items[j].id || items[i].id.Given?
  }

  lemma {:induction false} AcceptPrefix(rules: Rules, p: Proto, items: seq<Item>)
    requires p.phase == Live && p.open == Nothing && (forall i | 0 <= i < |items| :: items[i].ToolItem?)
    requires Distinct(p.done + items)
    ensures var es := PrefixEvents(items, p.index, p.num);
            AcceptAll(rules, p, es) == Some(p.(num := p.num + |es|, index := p.index + |items|, done := p.done + items))
    decreases items
  {
    hide Accept, AcceptAll, ToolCallEvents;
    if items == [] {
      AcceptNone(rules, p);
      assert p.done + items == p.done;
    } else {
      var item := items[0];
      var all := p.done + items;
      assert all[|p.done|] == item && forall i | 0 <= i < |p.done| :: all[i] == p.done[i];
      AcceptToolCall(rules, p, item);
      var es := ToolCallEvents(item, p.index, p.num);
      var q := p.(num := p.num + |es|, index := p.index + 1, done := p.done + [item]);
      assert q.done + items[1..] == all;
      AcceptPrefix(rules, q, items[1..]);
      AcceptConcat(rules, p, es, PrefixEvents(items[1..], q.index, q.num));
    }
  }

  lemma AcceptNone(rules: Rules, p: Proto)
    ensures AcceptAll(rules, p, []) == Some(p)
  {
  }

  lemma AcceptFailure(rules: Rules, p: Proto)
    requires p.phase == Live || p.phase == Begun
    ensures AcceptAll(rules, p, Failure(p.num)) == Some(p.(num := p.num + 2, phase := Ended))
  {
    hide AcceptAll;
    var es := Failure(p.num);
    AcceptTwo(rules, p, es[0], es[1]);
    assert es == [es[0], es[1]];
  }

  // ---- Tracking the generator -------------------------------------------------------------------

  /** All fresh ids are below n. */
  ghost predicate Below(items: seq<Item>, n: nat) {
    forall i | 0 <= i < |items| :: items[i].id.Fresh? ==> items[i].id.n < n
  }

  predicate IdBelow(id: ItemId, n: nat) { id.Fresh? ==> id.n < n }

  lemma BelowIsUnused(items: seq<Item>, n: nat)
    requires Below(items, n)
    ensures IdUnused(items, Fresh(n))
  {
  }

  function OpenOf(active: Active): Open {
    match active
    case NoActive => Nothing
    case ActiveMessage(id, text) => MessageText(id, text)
    case ActiveTool(id, callId, _, name, arguments) => ToolArgs(id, callId, name, arguments)
  }

  /** Where the protocol stands while the generator emits semantic items. */
  function SemProto(g: Gen): Proto { Proto(g.num, Live, OpenOf(g.active), g.activeIndex, g.completed) }

  ghost predicate SemInv(g: Gen) {
    && g.semantic && !g.reasoningEmitted && !g.messageOpen
    && Below(g.completed, g.ids)
    && (!g.active.NoActive? ==> IdBelow(g.active.id, g.ids))
  }

  ghost predicate Tracks(rules: Rules, p0: Proto, g: Gen, p: Proto) { AcceptAll(rules, p0, g.out) == Some(p) }

  ghost predicate SemTracks(rules: Rules, p0: Proto, g: Gen) { SemInv(g) && Tracks(rules, p0, g, SemProto(g)) }

  lemma EmitTracks(rules: Rules, p0: Proto, g: Gen, p: Proto, es: seq<Event>)
    requires Tracks(rules, p0, g, p)
    ensures AcceptAll(rules, p0, Emit(g, es).out) == AcceptAll(rules, p, es)
  {
    hide AcceptAll;
    AcceptConcat(rules, p0, g.out, es);
  }

  lemma CloseActiveTracks(rules: Rules, p0: Proto, g: Gen)
    requires SemTracks(rules, p0, g) && !g.active.NoActive?
    ensures SemTracks(rules, p0, CloseActive(g))
  {
    hide AcceptAll;
    var p := SemProto(g);
    var item := ActiveItem(g.active);
    if g.active.ActiveMessage? {
      AcceptCloseMessage(rules, p, g.active.text);
      assert Spelled(rules, g.active.text, g.active.text);
    } else {
      AcceptCloseTool(rules, p);
    }
    EmitTracks(rules, p0, g, p,
               if item.MessageItem? then CloseMessage(g.num, g.activeIndex, item.id, item.text)
               else CloseTool(g.num, g.activeIndex, item));
  }

  lemma OpenToolTracks(rules: Rules, p0: Proto, g: Gen, toolIndex: int, name: string)
    requires SemTracks(rules, p0, g) && g.active.NoActive?
    ensures SemTracks(rules, p0, OpenTool(g, toolIndex, name)) && OpenTool(g, toolIndex, name).active.ActiveTool?
  {
    hide AcceptAll, IdUnused;
    BelowIsUnused(g.completed, g.ids);
    var e := ItemAdded(g.num, g.activeIndex, ToolItem(Fresh(g.ids), Fresh(g.ids + 1), name, []));
    AcceptOne(rules, SemProto(g), e);
    EmitTracks(rules, p0, g, SemProto(g), [e]);
  }

  lemma AddArgumentsTracks(rules: Rules, p0: Proto, g: Gen, delta: string)
    requires SemTracks(rules, p0, g) && g.active.ActiveTool?
    ensures SemTracks(rules, p0, AddArguments(g, delta))
  {
    hide AcceptAll;
    var e := ArgsDelta(g.num, g.activeIndex, g.active.id, delta);
    AcceptOne(rules, SemProto(g), e);
    EmitTracks(rules, p0, g, SemProto(g), [e]);
  }

  lemma StartMessageTracks(rules: Rules, p0: Proto, g: Gen)
    requires SemTracks(rules, p0, g) && g.active.NoActive?
    ensures SemTracks(rules, p0, StartMessage(g)) && StartMessage(g).active.ActiveMessage?
  {
    hide AcceptAll, IdUnused;
    BelowIsUnused(g.completed, g.ids);
    AcceptOpenMessage(rules, SemProto(g), Fresh(g.ids));
    EmitTracks(rules, p0, g, SemProto(g), OpenMessage(g.num, g.activeIndex, Fresh(g.ids)));
  }

  lemma ToolDeltaTracks(rules: Rules, p0: Proto, g: Gen, d: ToolDelta)
    requires SemTracks(rules, p0, g)
    ensures SemTracks(rules, p0, OnToolDelta(g, d))
  {
    hide SemTracks, CloseActive, OpenTool, AddArguments;
    var g1 := g;
    if g.active.ActiveMessage? || (g.active.ActiveTool? && g.active.toolIndex != d.index) {
      CloseActiveTracks(rules, p0, g);
      ClosedActive(g);
      g1 := CloseActive(g);
    }
    if g1.active.ActiveTool? {
      AddArgumentsTracks(rules, p0, g1, d.arguments);
    } else if d.name.Some? {
      OpenToolTracks(rules, p0, g1, d.index, d.name.value);
      AddArgumentsTracks(rules, p0, OpenTool(g1, d.index, d.name.value), d.arguments);
    }
  }

  lemma ClosedActive(g: Gen)
    requires !g.active.NoActive?
    ensures CloseActive(g).active.NoActive?
  {
  }

  lemma {:induction false} ToolDeltasTrack(rules: Rules, p0: Proto, g: Gen, ds: seq<ToolDelta>)
    requires SemTracks(rules, p0, g)
    ensures SemTracks(rules, p0, OnToolDeltas(g, ds))
    decreases ds
  {
    hide SemTracks, OnToolDelta;
    if ds != [] {
      ToolDeltaTracks(rules, p0, g, ds[0]);
      ToolDeltasTrack(rules, p0, OnToolDelta(g, ds[0]), ds[1..]);
    }
  }

  lemma ContentTracks(rules: Rules, p0: Proto, g: Gen, content: string)
    requires SemTracks(rules, p0, g)
    ensures SemTracks(rules, p0, OnContent(g, content))
  {
    hide SemTracks, CloseActive, StartMessage;
    if content != [] {
      var g1 := if g.active.ActiveTool? then CloseActive(g) else g;
      if g.active.ActiveTool? { CloseActiveTracks(rules, p0, g); ClosedActive(g); }
      var g2 := if g1.active.ActiveMessage? then g1 else StartMessage(g1);
      if !g1.active.ActiveMessage? { StartMessageTracks(rules, p0, g1); }
      AddTextTracks(rules, p0, g2, content);
    }
  }

  lemma AddTextTracks(rules: Rules, p0: Proto, g: Gen, content: string)
    requires SemTracks(rules, p0, g) && g.active.ActiveMessage? && content != []
    ensures SemTracks(rules, p0, AddText(g, content))
  {
    hide AcceptAll;
    var e := TextDelta(g.num, g.activeIndex, g.active.id, 0, content);
    AcceptOne(rules, SemProto(g), e);
    EmitTracks(rules, p0, g, SemProto(g), [e]);
  }

  // ---- Plain text -------------------------------------------------------------------------------

  function ReasoningOf(g: Gen): seq<Item> { if g.reasoningEmitted then [ReasoningItem(g.rid, g.reasoning)] else [] }

  function OpenReasoning(g: Gen): Open { if g.reasoningEmitted then Reasoning(g.rid, g.reasoning) else Nothing }

  /** Where the protocol stands before answer output and during plain text. */
  function PlainProto(g: Gen, streamed: string): Proto {
    if g.messageOpen then Proto(g.num, Live, MessageText(g.mid, streamed), g.outputIndex, g.completed + ReasoningOf(g))
    else Proto(g.num, Live, OpenReasoning(g), g.outputIndex, g.completed)
  }

  ghost predicate PlainInv(g: Gen) {
    && !g.semantic && g.active.NoActive?
    && (g.reasoningEmitted <==> g.reasoning != [])
    && g.outputIndex == g.activeIndex + (if g.messageOpen && g.reasoningEmitted then 1 else 0)
    && g.rid.Fresh? && g.mid.Fresh? && g.rid.n < g.mid.n < g.ids && Below(g.completed, g.rid.n)
  }

  ghost predicate PlainTracks(rules: Rules, p0: Proto, g: Gen, streamed: string) {
    PlainInv(g) && Tracks(rules, p0, g, PlainProto(g, streamed))
  }

  lemma ReasoningTracks(rules: Rules, p0: Proto, g: Gen, reasoning: string, streamed: string)
    requires PlainTracks(rules, p0, g, streamed)
    requires reasoning == [] || reasoning == g.reasoning || (!g.messageOpen && g.reasoning <= reasoning)
    ensures PlainTracks(rules, p0, OnReasoning(g, reasoning), streamed)
    ensures OnReasoning(g, reasoning).reasoning == if reasoning == [] then g.reasoning else reasoning
  {
    hide AcceptAll, IdUnused;
    if reasoning != [] && reasoning != g.reasoning {
      var delta := A.Suffix(reasoning, g.reasoning);
      assert g.reasoning + delta == reasoning && delta != [];
      var p := PlainProto(g, streamed);
      var g1 := g;
      var p1 := p;
      if !g.reasoningEmitted {
        var added := ItemAdded(g.num, g.outputIndex, ReasoningItem(g.rid, []));
        BelowIsUnused(g.completed, g.rid.n);
        AcceptOne(rules, p, added);
        EmitTracks(rules, p0, g, p, [added]);
        g1 := Emit(g, [added]).(reasoningEmitted := true);
        p1 := p.(num := p.num + 1, open := Reasoning(g.rid, []));
      }
      assert Tracks(rules, p0, g1, p1) && p1.open == Reasoning(g.rid, g.reasoning);
      var e := TextDelta(g1.num, g.outputIndex, g.rid, 0, delta);
      AcceptOne(rules, p1, e);
      EmitTracks(rules, p0, g1, p1, [e]);
    }
  }

  lemma EndPlainReasoningTracks(rules: Rules, p0: Proto, g: Gen)
    requires PlainTracks(rules, p0, g, []) && !g.messageOpen
    ensures var g1 := EndPlainReasoning(g);
            Tracks(rules, p0, g1, Proto(g1.num, Live, Nothing, g1.outputIndex, g.completed + ReasoningOf(g)))
  {
    hide AcceptAll;
    if g.reasoningEmitted {
      var e := ItemDone(g.num, g.outputIndex, ReasoningItem(g.rid, g.reasoning));
      AcceptOne(rules, PlainProto(g, []), e);
      EmitTracks(rules, p0, g, PlainProto(g, []), [e]);
    } else {
      assert g.completed + [] == g.completed;
    }
  }

  lemma EndReasoningTracks(rules: Rules, p0: Proto, g: Gen)
    requires PlainTracks(rules, p0, g, []) && !g.messageOpen
    ensures SemTracks(rules, p0, EndReasoning(g.(semantic := true)))
  {
    hide AcceptAll;
    if g.reasoningEmitted {
      var e := ItemDone(g.num, g.activeIndex, ReasoningItem(g.rid, g.reasoning));
      AcceptOne(rules, PlainProto(g, []), e);
      EmitTracks(rules, p0, g, PlainProto(g, []), [e]);
    }
  }

  lemma StartPlainTracks(rules: Rules, p0: Proto, g: Gen)
    requires PlainTracks(rules, p0, g, []) && !g.messageOpen
    ensures PlainTracks(rules, p0, StartPlain(g), [])
  {
    hide AcceptAll;
    EndPlainReasoningTracks(rules, p0, g);
    var g1 := EndPlainReasoning(g);
    var p1 := Proto(g1.num, Live, Nothing, g1.outputIndex, g.completed + ReasoningOf(g));
    AcceptOpenMessage(rules, p1, g.mid);
    EmitTracks(rules, p0, g1, p1, OpenMessage(g1.num, g1.outputIndex, g1.mid));
  }

  lemma PlainTracksDelta(rules: Rules, p0: Proto, g: Gen, streamed: string, delta: string)
    requires PlainTracks(rules, p0, g, streamed) && (!g.messageOpen ==> streamed == [])
    ensures PlainTracks(rules, p0, OnPlain(g, delta), streamed + delta)
    ensures OnPlain(g, delta).messageOpen <==> g.messageOpen || delta != []
    ensures OnPlain(g, delta).reasoning == g.reasoning && OnPlain(g, delta).text == g.text
  {
    hide AcceptAll;
    if delta == [] {
      assert streamed + delta == streamed;
    } else {
      if !g.messageOpen { StartPlainTracks(rules, p0, g); }
      var g1 := if g.messageOpen then g else StartPlain(g);
      var e := TextDelta(g1.num, g1.outputIndex, g1.mid, 0, delta);
      AcceptOne(rules, PlainProto(g1, streamed), e);
      EmitTracks(rules, p0, g1, PlainProto(g1, streamed), [e]);
    }
  }

  // ---- One completion ---------------------------------------------------------------------------

  ghost predicate Agrees(w: Watch, g: Gen) {
    && w.text == g.text && w.reasoning == g.reasoning
    && w.mode == (if g.semantic then SemanticMode else if g.messageOpen then PlainMode else Unstarted)
  }

  /** The protocol state of a generator and everything that explains it. */
  ghost predicate InStep(rules: Rules, p0: Proto, g: Gen, w: Watch) {
    && Agrees(w, g) && A.Sound(g.text)
    && (if g.semantic then SemTracks(rules, p0, g)
        else PlainTracks(rules, p0, g, g.text.streamed) && (g.messageOpen <==> g.text.streamed != []))
  }

  lemma SemanticKeeps(g: Gen, s: SemanticDelta)
    ensures OnSemantic(g, s).text == g.text && OnSemantic(g, s).reasoning == g.reasoning
  {
    hide OnToolDeltas;
    ToolDeltasKeep(EndReasoning(g.(semantic := true)), s.toolDeltas);
  }

  lemma {:induction false} ToolDeltasKeep(g: Gen, ds: seq<ToolDelta>)
    ensures Keeps(g, OnToolDeltas(g, ds))
    decreases ds
  {
    hide OnToolDelta;
    if ds != [] {
      ToolDeltaKeeps(g, ds[0]);
      ToolDeltasKeep(OnToolDelta(g, ds[0]), ds[1..]);
    }
  }

  lemma ToolDeltaKeeps(g: Gen, d: ToolDelta)
    ensures Keeps(g, OnToolDelta(g, d))
  {
    hide CloseActive, OpenTool, AddArguments;
    var g1 := g;
    if g.active.ActiveMessage? || (g.active.ActiveTool? && g.active.toolIndex != d.index) {
      CloseActiveKeeps(g);
      g1 := CloseActive(g);
    }
    if g1.active.ActiveTool? {
      AddArgumentsKeeps(g1, d.arguments);
    } else if d.name.Some? {
      OpenToolKeeps(g1, d.index, d.name.value);
      AddArgumentsKeeps(OpenTool(g1, d.index, d.name.value), d.arguments);
    }
  }

  /** Semantic items leave text and reasoning alone and only add finished items and events. */
  predicate Keeps(g: Gen, g': Gen) {
    g'.text == g.text && g'.reasoning == g.reasoning && g.completed <= g'.completed && g.out <= g'.out
  }

  lemma CloseActiveKeeps(g: Gen)
    requires !g.active.NoActive?
    ensures Keeps(g, CloseActive(g))
  {
  }

  lemma OpenToolKeeps(g: Gen, toolIndex: int, name: string)
    ensures Keeps(g, OpenTool(g, toolIndex, name)) && OpenTool(g, toolIndex, name).active.ActiveTool?
  {
  }

  lemma AddArgumentsKeeps(g: Gen, delta: string)
    requires g.active.ActiveTool?
    ensures Keeps(g, AddArguments(g, delta))
  {
  }

  /** Semantic output after the reasoning, if any, is ended. */
  lemma SemanticTracks(rules: Rules, p0: Proto, g: Gen, s: SemanticDelta)
    requires if g.semantic then SemTracks(rules, p0, g) else PlainTracks(rules, p0, g, []) && !g.messageOpen
    ensures SemTracks(rules, p0, OnSemantic(g, s))
  {
    var g1 := EndReasoning(g.(semantic := true));
    if g.semantic {
      assert g1 == g;
    } else {
      EndReasoningTracks(rules, p0, g);
    }
    hide SemTracks, PlainTracks, OnToolDeltas, OnContent;
    ToolDeltasTrack(rules, p0, g1, s.toolDeltas);
    ContentTracks(rules, p0, OnToolDeltas(g1, s.toolDeltas), s.content);
  }

  lemma TextIsAside(rules: Rules, p0: Proto, g: Gen, ts: A.TextState, streamed: string)
    ensures SemTracks(rules, p0, g) ==> SemTracks(rules, p0, g.(text := ts))
    ensures PlainTracks(rules, p0, g, streamed) ==> PlainTracks(rules, p0, g.(text := ts), streamed)
  {
    hide AcceptAll;
  }

  lemma StepTracks(rules: Rules, p0: Proto, g: Gen, w: Watch, c: Completion)
    requires InStep(rules, p0, g, w) && RegularStep(w, c)
    ensures InStep(rules, p0, Step(g, c), Watched(w, c))
  {
    hide SemTracks, PlainTracks, A.Sound, A.Next, A.Delta, OnSemantic, OnPlain, OnReasoning;
    var g1 := OnReasoning(g, c.reasoning);
    if g.semantic {
      ReasoningAside(g, c.reasoning);
    } else {
      ReasoningTracks(rules, p0, g, c.reasoning, g.text.streamed);
    }
    ReasoningKeeps(g, c.reasoning);
    A.NextSound(g.text, c.text);
    var g2 := g1.(text := A.Next(g1.text, c.text));
    TextIsAside(rules, p0, g1, g2.text, g.text.streamed);
    var delta := A.Delta(g1.text, c.text);
    NextStreamed(g.text, c.text);
    if Effective(c) {
      var s := c.semantic.value;
      SemanticTracks(rules, p0, g2, s);
      SemanticKeeps(g2, s);
      IsSemantic(rules, p0, OnSemantic(g2, s));
    } else if g.semantic {
      assert delta == [];
      PlainAside(g2);
    } else {
      PlainTracksDelta(rules, p0, g2, g.text.streamed, delta);
      PlainKeeps(g2, delta);
    }
  }

  lemma ReasoningAside(g: Gen, reasoning: string)
    ensures reasoning == [] || reasoning == g.reasoning ==> OnReasoning(g, reasoning) == g
  {
  }

  lemma ReasoningKeeps(g: Gen, reasoning: string)
    ensures var g1 := OnReasoning(g, reasoning);
            g1.text == g.text && g1.semantic == g.semantic && g1.messageOpen == g.messageOpen
  {
  }

  lemma NextStreamed(ts: A.TextState, text: string)
    ensures A.Next(ts, text).streamed == ts.streamed + A.Delta(ts, text)
  {
  }

  lemma IsSemantic(rules: Rules, p0: Proto, g: Gen)
    requires SemTracks(rules, p0, g)
    ensures g.semantic
  {
  }

  lemma PlainAside(g: Gen)
    ensures OnPlain(g, []) == g
  {
  }

  lemma PlainKeeps(g: Gen, delta: string)
    ensures OnPlain(g, delta).semantic == g.semantic
  {
  }

  function WatchedAll(w: Watch, cs: seq<Completion>): Watch
    decreases cs
  {
    if cs == [] then w else WatchedAll(Watched(w, cs[0]), cs[1..])
  }

  lemma {:induction false} StepsTrack(rules: Rules, p0: Proto, g: Gen, w: Watch, cs: seq<Completion>)
    requires InStep(rules, p0, g, w) && Regular(w, cs)
    ensures InStep(rules, p0, Steps(g, cs), WatchedAll(w, cs))
    decreases cs
  {
    hide InStep, RegularStep, Step, Watched;
    if cs != [] {
      StepTracks(rules, p0, g, w, cs[0]);
      StepsTrack(rules, p0, Step(g, cs[0]), Watched(w, cs[0]), cs[1..]);
    }
  }

  // ---- The end of the stream --------------------------------------------------------------------

  /** White space was dropped before plain text was streamed. */
  ghost predicate Lossy(w: Watch) { w.mode == PlainMode && A.Dropped(w.text) != [] }

  /** The protocol has ended with exactly the reported output done. */
  ghost predicate Ends(reached: Option<Proto>, outcome: Outcome)
    requires outcome.Finished?
  {
    reached.Some? && reached.value.(index := 0) == Proto(outcome.g.num, Ended, Nothing, 0, outcome.output)
  }

  lemma CompleteTracks(rules: Rules, p0: Proto, g: Gen, p: Proto)
    requires Tracks(rules, p0, g, p) && p.num == g.num && p.phase == Live && p.open == Nothing
    ensures AcceptAll(rules, p0, Complete(g, p.done).g.out) == Some(p.(num := p.num + 1, phase := Ended))
  {
    hide AcceptAll;
    var e := Completed(g.num, p.done);
    AcceptOne(rules, p, e);
    EmitTracks(rules, p0, g, p, [e]);
  }

  lemma FinishSemanticTracks(rules: Rules, p0: Proto, g: Gen, parse: A.Parser)
    requires SemTracks(rules, p0, g)
    ensures var outcome := Finish(g, parse);
            outcome.Finished? && Ends(AcceptAll(rules, p0, outcome.g.out), outcome)
  {
    hide AcceptAll;
    assert EndReasoning(g) == g;
    if !g.active.NoActive? { CloseActiveTracks(rules, p0, g); }
    var g1 := FinishSemantic(g);
    CompleteTracks(rules, p0, g1, SemProto(g1));
  }

  lemma WholeMessageTracks(rules: Rules, p: Proto, id: ItemId, text: string)
    requires p.phase == Live && p.open == Nothing && (id.Fresh? ==> IdUnused(p.done, id)) && text != []
    ensures AcceptAll(rules, p, WholeMessage(p.num, p.index, id, text)) ==
              Some(p.(num := p.num + 6, index := p.index + 1, done := p.done + [MessageItem(id, text)]))
  {
    hide AcceptAll;
    AcceptOpenMessage(rules, p, id);
    var p1 := p.(num := p.num + 2, open := MessageText(id, []));
    var e := TextDelta(p1.num, p1.index, id, 0, text);
    AcceptOne(rules, p1, e);
    assert [] + text == text;
    var p2 := p1.(num := p1.num + 1, open := MessageText(id, text));
    AcceptCloseMessage(rules, p2, text);
    AcceptConcat(rules, p, OpenMessage(p.num, p.index, id), [e]);
    AcceptConcat(rules, p, OpenMessage(p.num, p.index, id) + [e], CloseMessage(p2.num, p2.index, id, text));
  }

  lemma EndPlainTracks(rules: Rules, p0: Proto, g: Gen, deferred: string)
    requires PlainTracks(rules, p0, g, []) && !g.messageOpen
    ensures var g1 := if g.reasoningEmitted then EndPlainReasoning(g) else g;
            var done := PlainOutput(g1, deferred);
            && Tracks(rules, p0, g1, Proto(g1.num, Live, Nothing, g1.outputIndex, g.completed + ReasoningOf(g)))
            && var g2 := EndPlain(g1, deferred);
               Tracks(rules, p0, g2,
                      Proto(g2.num, Live, Nothing, g1.outputIndex + (if deferred == [] then 0 else 1), done))
  {
    hide AcceptAll;
    EndPlainReasoningTracks(rules, p0, g);
    var g1 := EndPlainReasoning(g);
    var p1 := Proto(g1.num, Live, Nothing, g1.outputIndex, g.completed + ReasoningOf(g));
    if deferred != [] {
      WholeMessageTracks(rules, p1, g.mid, deferred);
      EmitTracks(rules, p0, g1, p1, WholeMessage(g1.num, g1.outputIndex, g1.mid, deferred));
    } else {
      assert PlainOutput(g1, deferred) == p1.done;
    }
  }

  lemma CloseMessageTracks(rules: Rules, p0: Proto, g: Gen)
    requires PlainTracks(rules, p0, g, g.text.streamed) && g.messageOpen && A.Sound(g.text) && g.text.streamed != []
    ensures var g1 := EndPlain(g, []);
            var es := CloseMessage(g.num, g.outputIndex, g.mid, g.text.text);
            && (rules.exactText && A.Dropped(g.text) != [] ==>
                AcceptAll(rules, PlainProto(g, g.text.streamed), es) == None)
            && (rules.exactText && A.Dropped(g.text) != [] ==> AcceptAll(rules, p0, g1.out) == None)
            && (!rules.exactText || A.Dropped(g.text) == [] ==>
                  Tracks(rules, p0, g1, Proto(g1.num, Live, Nothing, g.outputIndex + 1, PlainOutput(g, []))))
  {
    hide AcceptAll, A.Blank;
    var p := PlainProto(g, g.text.streamed);
    AcceptCloseMessage(rules, p, g.text.text);
    EmitTracks(rules, p0, g, p, CloseMessage(g.num, g.outputIndex, g.mid, g.text.text));
    assert g.text.text == A.Dropped(g.text) + g.text.streamed;
    assert PlainOutput(g, []) == g.completed + ReasoningOf(g) + [MessageItem(g.mid, g.text.text)];
  }

  lemma FinishPlainTracks(rules: Rules, p0: Proto, g: Gen, w: Watch, parse: A.Parser)
    requires InStep(rules, p0, g, w) && !g.semantic
    ensures var outcome := Finish(g, parse);
            var reached := AcceptAll(rules, p0, outcome.g.out);
            if outcome.Raised? then reached.Some? && reached.value.phase == Live
            else outcome.Finished? && if rules.exactText && Lossy(w) then reached == None else Ends(reached, outcome)
  {
    hide AcceptAll, A.Normalized, EndPlain, PlainOutput;
    var deferred := A.Deferred(parse, g.text);
    if g.messageOpen {
      assert deferred == [];
      CloseMessageTracks(rules, p0, g);
      var g2 := EndPlain(g, []);
      if rules.exactText && Lossy(w) {
        AcceptConcat(rules, p0, g2.out, [Completed(g2.num, PlainOutput(g, []))]);
      } else {
        CompleteTracks(rules, p0, g2, Proto(g2.num, Live, Nothing, g.outputIndex + 1, PlainOutput(g, [])));
      }
    } else {
      EndPlainTracks(rules, p0, g, deferred);
      var g1 := if g.reasoningEmitted then EndPlainReasoning(g) else g;
      var g2 := EndPlain(g1, deferred);
      var index := g1.outputIndex + if deferred == [] then 0 else 1;
      CompleteTracks(rules, p0, g2, Proto(g2.num, Live, Nothing, index, PlainOutput(g1, deferred)));
    }
  }

  // ---- Whole runs -------------------------------------------------------------------------------

  /** The protocol state a generator with this request starts from. */
  function Origin(request: Request, prefix: seq<Item>, num: nat): Proto {
    Proto(num, if request.prelude then Begun else Live, Nothing,
          if request.prefixEvents then 0 else |prefix|, if request.prefixEvents then [] else prefix)
  }

  lemma StartTracks(rules: Rules, request: Request, prefix: seq<Item>, num: nat, base: nat)
    requires forall i | 0 <= i < |prefix| :: prefix[i].ToolItem?
    requires Distinct(prefix) && Below(prefix, base)
    ensures InStep(rules, Origin(request, prefix, num), Start(request, prefix, num, base), Watching(request.hasTools))
  {
    hide AcceptAll, PrefixEvents;
    var p0 := Origin(request, prefix, num);
    HeadTracks(rules, request, prefix, num);
    var p1 := p0.(num := num + (if request.prelude then 2 else 0), phase := Live);
    var head := if request.prelude then Prelude(num) else [];
    assert [] + prefix == prefix;
    var calls := if request.prefixEvents then PrefixEvents(prefix, 0, p1.num) else [];
    if request.prefixEvents { AcceptPrefix(rules, p1, prefix); } else { AcceptNone(rules, p1); }
    AcceptConcat(rules, p0, head, calls);
    StartIs(request, prefix, num, base);
  }

  lemma HeadTracks(rules: Rules, request: Request, prefix: seq<Item>, num: nat)
    ensures var p0, head := Origin(request, prefix, num), if request.prelude then Prelude(num) else [];
            AcceptAll(rules, p0, head) == Some(p0.(num := num + (if request.prelude then 2 else 0), phase := Live))
  {
    hide AcceptAll;
    var p0 := Origin(request, prefix, num);
    if request.prelude {
      var head := Prelude(num);
      AcceptTwo(rules, p0, head[0], head[1]);
      assert head == [head[0], head[1]];
    } else {
      AcceptNone(rules, p0);
    }
  }

  lemma StartIs(request: Request, prefix: seq<Item>, num: nat, base: nat)
    requires forall i | 0 <= i < |prefix| :: prefix[i].ToolItem?
    ensures var g, p0 := Start(request, prefix, num, base), Origin(request, prefix, num);
            var head := if request.prelude then Prelude(num) else [];
            var calls := if request.prefixEvents then PrefixEvents(prefix, 0, num + |head|) else [];
            && g.out == head + calls
            && PlainProto(g, []) == p0.(num := num + |head| + |calls|, phase := Live, index := |prefix|, done := prefix)
  {
    hide PrefixEvents;
  }

  /** The main result. A regular run keeps the event protocol from start to end: numbers, indices and
      items are in order, every delta belongs to the open item, and response.completed reports exactly
      the finished items. It also keeps the exact rule, that a message is exactly its deltas, unless
      plain text was streamed after dropping white space, and then it never does. */
  lemma RegularRunIsBracketed(rules: Rules, request: Request, prefix: seq<Item>, num: nat, base: nat,
                              cs: seq<Completion>, engineFails: bool, parse: A.Parser)
    requires forall i | 0 <= i < |prefix| :: prefix[i].ToolItem?
    requires Distinct(prefix) && Below(prefix, base) && Regular(Watching(request.hasTools), cs)
    ensures var outcome := Generate(Start(request, prefix, num, base), cs, engineFails, parse);
            var reached := AcceptAll(rules, Origin(request, prefix, num), outcome.g.out);
            if outcome.Raised? then reached.Some? && reached.value.phase == Live
            else if outcome.Failed? then reached.Some? && reached.value.phase == Ended
            else if rules.exactText && Lossy(WatchedAll(Watching(request.hasTools), cs)) then reached == None
            else Ends(reached, outcome)
  {
    hide AcceptAll, Steps, Finish, Lossy, Start, Origin;
    var p0, start, w := Origin(request, prefix, num), Start(request, prefix, num, base), Watching(request.hasTools);
    StartTracks(rules, request, prefix, num, base);
    StepsTrack(rules, p0, start, w, cs);
    var g, w' := Steps(start, cs), WatchedAll(w, cs);
    if engineFails {
      var p := if g.semantic then SemProto(g) else PlainProto(g, g.text.streamed);
      AcceptFailure(rules, p);
      EmitTracks(rules, p0, g, p, Failure(g.num));
    } else if g.semantic {
      FinishSemanticTracks(rules, p0, g, parse);
      SemanticIsExact(w', g);
    } else {
      FinishPlainTracks(rules, p0, g, w', parse);
    }
  }

  lemma SemanticIsExact(w: Watch, g: Gen)
    requires Agrees(w, g) && g.semantic
    ensures !Lossy(w)
  {
  }

  lemma PrefixIsKept(request: Request, prefix: seq<Item>, num: nat, base: nat, cs: seq<Completion>, parse: A.Parser)
    requires forall i | 0 <= i < |prefix| :: prefix[i].ToolItem?
    requires Generate(Start(request, prefix, num, base), cs, false, parse).Finished?
    ensures prefix <= Generate(Start(request, prefix, num, base), cs, false, parse).output
  {
    hide Steps, A.Normalized, A.Deferred, PrefixEvents;
    CompletedGrows(Start(request, prefix, num, base), cs);
  }

  lemma {:induction false} CompletedGrows(g: Gen, cs: seq<Completion>)
    ensures g.completed <= Steps(g, cs).completed
    decreases cs
  {
    hide Step;
    if cs != [] {
      StepCompletedGrows(g, cs[0]);
      CompletedGrows(Step(g, cs[0]), cs[1..]);
    }
  }

  lemma StepCompletedGrows(g: Gen, c: Completion)
    ensures g.completed <= Step(g, c).completed
  {
    hide OnReasoning, OnToolDeltas, OnContent, OnPlain, A.Next, A.Delta;
    OthersKeepCompleted(g, c.reasoning, []);
    var g1 := OnReasoning(g, c.reasoning);
    var g2 := g1.(text := A.Next(g1.text, c.text));
    if Effective(c) {
      var g3 := EndReasoning(g2.(semantic := true));
      ToolDeltasKeep(g3, c.semantic.value.toolDeltas);
      ContentCompletedGrows(OnToolDeltas(g3, c.semantic.value.toolDeltas), c.semantic.value.content);
    } else {
      OthersKeepCompleted(g2, [], A.Delta(g1.text, c.text));
    }
  }

  lemma OthersKeepCompleted(g: Gen, reasoning: string, delta: string)
    ensures OnReasoning(g, reasoning).completed == g.completed && OnPlain(g, delta).completed == g.completed
  {
  }

  lemma ContentCompletedGrows(g: Gen, content: string)
    ensures g.completed <= OnContent(g, content).completed
  {
  }

  /** The output lists the items in the order they were done, after the prefix calls that were
      reported elsewhere, at consecutive indices, each spelled out by the deltas at its own index. */
  lemma CompletedRunListsItsItems(rules: Rules, request: Request, prefix: seq<Item>, num: nat, base: nat,
                                  cs: seq<Completion>, parse: A.Parser)
    requires !(rules.exactText && Lossy(WatchedAll(Watching(request.hasTools), cs)))
    requires forall i | 0 <= i < |prefix| :: prefix[i].ToolItem?
    requires Distinct(prefix) && Below(prefix, base) && Regular(Watching(request.hasTools), cs)
    requires Generate(Start(request, prefix, num, base), cs, false, parse).Finished?
    ensures var outcome := Generate(Start(request, prefix, num, base), cs, false, parse);
            var es, before := outcome.g.out, if request.prefixEvents then [] else prefix;
            && prefix <= outcome.output == before + DoneItems(es)
            && AddedIndices(es) == DoneIndices(es) == Range(|before|, |DoneItems(es)|)
            && forall i | |before| <= i < |outcome.output| :: ItemSpelled(rules, DeltasAt(es, i), outcome.output[i])
  {
    hide Generate, Start, AcceptAll, ItemSpelled, Lossy, Regular, WatchedAll, DeltasAt, DoneItems, DoneIndices,
         AddedIndices;
    PrefixIsKept(request, prefix, num, base, cs, parse);
    RegularRunIsBracketed(rules, request, prefix, num, base, cs, false, parse);
    var outcome := Generate(Start(request, prefix, num, base), cs, false, parse);
    var es, p0 := outcome.g.out, Origin(request, prefix, num);
    assert Ends(AcceptAll(rules, p0, es), outcome);
    var q := AcceptAll(rules, p0, es).value;
    AcceptedIsBracketed(rules, p0, es);
    DeltasSpellItems(rules, p0, es, []);
    forall i | p0.index <= i < |outcome.output| ensures ItemSpelled(rules, DeltasAt(es, i), outcome.output[i]) {
      assert (if i == p0.index then [] else []) + DeltasAt(es, i) == DeltasAt(es, i);
    }
  }
}
