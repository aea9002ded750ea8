/** What mixing semantic deltas and streamed plain text does to the event protocol: a finished run is
    accepted exactly when it does not mix them. */
module ResponseMixedRuns {
  import opened KeyOrder
  import opened ResponseEvents
  import opened ResponseProtocol
  import opened ResponseGenerator
  import opened ResponseRegularRuns
  import A = AssistantOutput

  ghost predicate Tame(w: Watch, cs: seq<Completion>)
    decreases cs
  {
    cs == [] || (TameStep(w, cs[0]) && Tame(Watched(w, cs[0]), cs[1..]))
  }

  predicate Unmixed(w: Watch, cs: seq<Completion>)
    decreases cs
  {
    cs == [] || (UnmixedStep(w, cs[0]) && Unmixed(Watched(w, cs[0]), cs[1..]))
  }

  lemma {:induction false} RegularIsTameAndUnmixed(w: Watch, cs: seq<Completion>)
    ensures Regular(w, cs) <==> Tame(w, cs) && Unmixed(w, cs)
    decreases cs
  {
    hide TameStep, UnmixedStep, Watched;
    if cs != [] { RegularIsTameAndUnmixed(Watched(w, cs[0]), cs[1..]); }
  }

  // ---- Streams that cannot be repaired ----------------------------------------------------------

  ghost predicate Rejected(rules: Rules, p0: Proto, out: seq<Event>) { AcceptAll(rules, p0, out) == None }

  lemma RejectedStays(rules: Rules, p0: Proto, out: seq<Event>, more: seq<Event>)
    requires Rejected(rules, p0, out) && out <= more
    ensures Rejected(rules, p0, more)
  {
    hide AcceptAll;
    assert more == out + more[|out|..];
    AcceptConcat(rules, p0, out, more[|out|..]);
  }

  /** An event that does not fit makes the stream rejected. */
  lemma RejectNext(rules: Rules, p0: Proto, out: seq<Event>, p: Proto, es: seq<Event>)
    requires AcceptAll(rules, p0, out) == Some(p) && es != [] && Accept(rules, p, es[0]) == None
    ensures Rejected(rules, p0, out + es)
  {
    hide AcceptAll;
    assert es == [es[0]] + es[1..];
    AcceptOne(rules, p, es[0]);
    AcceptConcat(rules, p, [es[0]], es[1..]);
    AcceptConcat(rules, p0, out, es);
  }

  /** The plain-text message is open among semantic items, where nothing will ever close it. */
  ghost predicate Stuck(rules: Rules, p0: Proto, g: Gen, p: Proto) {
    && g.semantic && g.messageOpen && !g.reasoningEmitted && g.active.NoActive?
    && AcceptAll(rules, p0, g.out) == Some(p)
    && p.num == g.num && p.phase == Live && p.index == g.outputIndex && p.open.MessageText? && p.open.id == g.mid
  }

  ghost predicate Spoiled(rules: Rules, p0: Proto, g: Gen) {
    Rejected(rules, p0, g.out) || exists p :: Stuck(rules, p0, g, p)
  }

  lemma ToolDeltaSpoils(rules: Rules, p0: Proto, g: Gen, d: ToolDelta)
    requires Spoiled(rules, p0, g)
    ensures Spoiled(rules, p0, OnToolDelta(g, d))
  {
    hide AcceptAll;
    if Rejected(rules, p0, g.out) {
      ToolDeltaKeeps(g, d);
      RejectedStays(rules, p0, g.out, OnToolDelta(g, d).out);
    } else if d.name.Some? {
      var p :| Stuck(rules, p0, g, p);
      var added := [ItemAdded(g.num, g.activeIndex, ToolItem(Fresh(g.ids), Fresh(g.ids + 1), d.name.value, []))];
      RejectNext(rules, p0, g.out, p, added);
      RejectedStays(rules, p0, g.out + added, OnToolDelta(g, d).out);
    }
  }

  lemma {:induction false} ToolDeltasSpoil(rules: Rules, p0: Proto, g: Gen, ds: seq<ToolDelta>)
    requires Spoiled(rules, p0, g)
    ensures Spoiled(rules, p0, OnToolDeltas(g, ds))
    decreases ds
  {
    hide Spoiled, OnToolDelta;
    if ds != [] {
      ToolDeltaSpoils(rules, p0, g, ds[0]);
      ToolDeltasSpoil(rules, p0, OnToolDelta(g, ds[0]), ds[1..]);
    }
  }

  lemma ContentSpoils(rules: Rules, p0: Proto, g: Gen, content: string)
    requires Spoiled(rules, p0, g)
    ensures Spoiled(rules, p0, OnContent(g, content))
  {
    hide AcceptAll;
    if Rejected(rules, p0, g.out) {
      RejectedStays(rules, p0, g.out, OnContent(g, content).out);
    } else if content != [] {
      var p :| Stuck(rules, p0, g, p);
      var opening := OpenMessage(g.num, g.activeIndex, Fresh(g.ids));
      RejectNext(rules, p0, g.out, p, opening);
      RejectedStays(rules, p0, g.out + opening, OnContent(g, content).out);
    }
  }

  lemma PlainSpoils(rules: Rules, p0: Proto, g: Gen, delta: string)
    requires Spoiled(rules, p0, g)
    ensures Spoiled(rules, p0, OnPlain(g, delta))
  {
    hide AcceptAll;
    if Rejected(rules, p0, g.out) {
      RejectedStays(rules, p0, g.out, OnPlain(g, delta).out);
    } else if delta != [] {
      var p :| Stuck(rules, p0, g, p);
      var e := TextDelta(g.num, g.outputIndex, g.mid, 0, delta);
      AcceptOne(rules, p, e);
      AcceptConcat(rules, p0, g.out, [e]);
      assert Stuck(rules, p0, OnPlain(g, delta), Accept(rules, p, e).value);
    }
  }

  lemma SpoiledAside(rules: Rules, p0: Proto, g: Gen, ts: A.TextState)
    requires Spoiled(rules, p0, g)
    ensures Spoiled(rules, p0, g.(text := ts))
  {
    if !Rejected(rules, p0, g.out) {
      var p :| Stuck(rules, p0, g, p);
      assert Stuck(rules, p0, g.(text := ts), p);
    }
  }

  /** Ending the reasoning item changes nothing where a message is stuck. */
  lemma EndReasoningSpoils(rules: Rules, p0: Proto, g: Gen)
    requires Spoiled(rules, p0, g)
    ensures Spoiled(rules, p0, EndReasoning(g.(semantic := true)))
  {
    hide AcceptAll;
    if Rejected(rules, p0, g.out) {
      RejectedStays(rules, p0, g.out, EndReasoning(g.(semantic := true)).out);
    } else {
      var p :| Stuck(rules, p0, g, p);
      assert Stuck(rules, p0, EndReasoning(g.(semantic := true)), p);
    }
  }

  lemma SemanticSpoils(rules: Rules, p0: Proto, g: Gen, s: SemanticDelta)
    requires Spoiled(rules, p0, EndReasoning(g.(semantic := true)))
    ensures Spoiled(rules, p0, OnSemantic(g, s))
  {
    hide Spoiled, OnToolDeltas, OnContent, EndReasoning;
    var g1 := EndReasoning(g.(semantic := true));
    ToolDeltasSpoil(rules, p0, g1, s.toolDeltas);
    ContentSpoils(rules, p0, OnToolDeltas(g1, s.toolDeltas), s.content);
  }

  /** The observer has the generator's text and reasoning, and answer output has started. */
  predicate Sees(w: Watch, g: Gen) { w.text == g.text && w.reasoning == g.reasoning && w.mode != Unstarted }

  lemma StepSees(g: Gen, w: Watch, c: Completion)
    requires w.text == g.text && w.reasoning == g.reasoning
    ensures var g', w' := Step(g, c), Watched(w, c);
            w'.text == g'.text && w'.reasoning == g'.reasoning && (w.mode != Unstarted ==> w'.mode != Unstarted)
  {
    hide OnSemantic, OnPlain, A.Next, A.Delta;
    var g2 := OnReasoning(g, c.reasoning).(text := A.Next(OnReasoning(g, c.reasoning).text, c.text));
    if Effective(c) { SemanticKeeps(g2, c.semantic.value); } else { PlainKeepsText(g2, A.Delta(g.text, c.text)); }
  }

  lemma PlainKeepsText(g: Gen, delta: string)
    ensures OnPlain(g, delta).text == g.text && OnPlain(g, delta).reasoning == g.reasoning
  {
  }

  /** A spoiled stream stays spoiled. */
  lemma StepSpoils(rules: Rules, p0: Proto, g: Gen, w: Watch, c: Completion)
    requires Spoiled(rules, p0, g) && Sees(w, g) && TameStep(w, c)
    ensures Spoiled(rules, p0, Step(g, c))
  {
    ReasoningAside(g, c.reasoning);
    var g2 := g.(text := A.Next(g.text, c.text));
    SpoiledAside(rules, p0, g, g2.text);
    EndReasoningSpoils(rules, p0, g2);
    hide Spoiled, OnSemantic, OnPlain, OnReasoning, EndReasoning, A.Next, A.Delta;
    if Effective(c) {
      SemanticSpoils(rules, p0, g2, c.semantic.value);
    } else {
      PlainSpoils(rules, p0, g2, A.Delta(g.text, c.text));
    }
  }

  lemma {:induction false} StepsSpoil(rules: Rules, p0: Proto, g: Gen, w: Watch, cs: seq<Completion>)
    requires Spoiled(rules, p0, g) && Sees(w, g) && Tame(w, cs)
    ensures Spoiled(rules, p0, Steps(g, cs))
    decreases cs
  {
    hide Spoiled, TameStep, Step, Watched;
    if cs != [] {
      StepSpoils(rules, p0, g, w, cs[0]);
      StepSees(g, w, cs[0]);
      StepsSpoil(rules, p0, Step(g, cs[0]), Watched(w, cs[0]), cs[1..]);
    }
  }

  // ---- Mixing spoils ----------------------------------------------------------------------------

  /** A semantic chunk while plain text is open. */
  lemma SemanticAfterPlain(rules: Rules, p0: Proto, g: Gen)
    requires PlainTracks(rules, p0, g, g.text.streamed) && g.messageOpen
    ensures Spoiled(rules, p0, EndReasoning(g.(semantic := true)))
  {
    hide AcceptAll;
    var p := PlainProto(g, g.text.streamed);
    if g.reasoningEmitted {
      RejectNext(rules, p0, g.out, p, [ItemDone(g.num, g.activeIndex, ReasoningItem(g.rid, g.reasoning))]);
    } else {
      assert Stuck(rules, p0, EndReasoning(g.(semantic := true)), p);
    }
  }

  /** Plain text among semantic items. */
  lemma PlainAfterSemantic(rules: Rules, p0: Proto, g: Gen, delta: string)
    requires SemTracks(rules, p0, g) && delta != []
    ensures Spoiled(rules, p0, OnPlain(g, delta))
  {
    hide AcceptAll, IdUnused;
    var p := SemProto(g);
    var opening := OpenMessage(g.num, g.outputIndex, g.mid);
    var e := TextDelta(g.num + 2, g.outputIndex, g.mid, 0, delta);
    assert OnPlain(g, delta).out == g.out + opening + [e];
    if p.open == Nothing && p.index == g.outputIndex && (g.mid.Fresh? ==> IdUnused(p.done, g.mid)) {
      AcceptOpenMessage(rules, p, g.mid);
      EmitTracks(rules, p0, g, p, opening);
      var p1 := p.(num := p.num + 2, open := MessageText(g.mid, []));
      AcceptOne(rules, p1, e);
      AcceptConcat(rules, p0, g.out + opening, [e]);
      assert Stuck(rules, p0, OnPlain(g, delta), Accept(rules, p1, e).value);
    } else {
      RejectNext(rules, p0, g.out, p, opening);
      RejectedStays(rules, p0, g.out + opening, OnPlain(g, delta).out);
    }
  }

  lemma MixSpoils(rules: Rules, p0: Proto, g: Gen, w: Watch, c: Completion)
    requires InStep(rules, p0, g, w) && TameStep(w, c) && !UnmixedStep(w, c)
    ensures Spoiled(rules, p0, Step(g, c))
  {
    hide SemTracks, PlainTracks, Spoiled, A.Sound, A.Next, A.Delta, OnSemantic, OnPlain, OnReasoning, EndReasoning;
    ReasoningAside(g, c.reasoning);
    var next := A.Next(g.text, c.text);
    var g2 := g.(text := next);
    if Effective(c) {
      SemanticAfterPlain(rules, p0, g);
      SpoiledAside(rules, p0, EndReasoning(g.(semantic := true)), next);
      EndReasoningAside(g, next);
      SemanticSpoils(rules, p0, g2, c.semantic.value);
    } else {
      TextIsAside(rules, p0, g, next, g.text.streamed);
      PlainAfterSemantic(rules, p0, g2, A.Delta(g.text, c.text));
    }
  }

  lemma EndReasoningAside(g: Gen, ts: A.TextState)
    ensures EndReasoning(g.(semantic := true)).(text := ts) == EndReasoning(g.(text := ts).(semantic := true))
  {
  }

  lemma {:induction false} MixedRunSpoils(rules: Rules, p0: Proto, g: Gen, w: Watch, cs: seq<Completion>)
    requires InStep(rules, p0, g, w) && Tame(w, cs) && !Unmixed(w, cs)
    ensures Spoiled(rules, p0, Steps(g, cs))
    decreases cs
  {
    var c, g', w' := cs[0], Step(g, cs[0]), Watched(w, cs[0]);
    if UnmixedStep(w, c) {
      hide Spoiled, InStep, TameStep, UnmixedStep, Step, Watched;
      StepTracks(rules, p0, g, w, c);
      MixedRunSpoils(rules, p0, g', w', cs[1..]);
    } else {
      hide Spoiled, TameStep, Step;
      MixSpoils(rules, p0, g, w, c);
      StepSees(g, w, c);
      StepsSpoil(rules, p0, g', w', cs[1..]);
    }
  }

  /** No finished stream recovers. */
  lemma SpoiledFinish(rules: Rules, p0: Proto, g: Gen, parse: A.Parser)
    requires Spoiled(rules, p0, g) && Finish(g, parse).Finished?
    ensures Rejected(rules, p0, Finish(g, parse).g.out)
  {
    hide AcceptAll, A.Normalized, A.Deferred, PlainOutput;
    if Rejected(rules, p0, g.out) {
      FinishGrows(g, parse);
      RejectedStays(rules, p0, g.out, Finish(g, parse).g.out);
    } else {
      var p :| Stuck(rules, p0, g, p);
      assert EndReasoning(g) == g;
      RejectNext(rules, p0, g.out, p, [Completed(g.num, g.completed)]);
    }
  }

  lemma FinishGrows(g: Gen, parse: A.Parser)
    ensures g.out <= Finish(g, parse).g.out
  {
    hide A.Normalized, A.Deferred, PlainOutput;
  }

  /** A finished run with growing text and reasoning frozen once output starts is accepted if and only
      if it does not mix semantic deltas and streamed plain text (and, under the exact rule, did not
      drop white space before plain text). */
  lemma AcceptedIffUnmixed(rules: Rules, request: Request, prefix: seq<Item>, num: nat, base: nat,
                           cs: seq<Completion>, parse: A.Parser)
    requires forall i | 0 <= i < |prefix| :: prefix[i].ToolItem?
    requires Distinct(prefix) && Below(prefix, base) && Tame(Watching(request.hasTools), cs)
    requires Generate(Start(request, prefix, num, base), cs, false, parse).Finished?
    ensures var w := Watching(request.hasTools);
            var out := Generate(Start(request, prefix, num, base), cs, false, parse).g.out;
            AcceptAll(rules, Origin(request, prefix, num), out).Some? <==>
              Unmixed(w, cs) && !(rules.exactText && Lossy(WatchedAll(w, cs)))
  {
    hide AcceptAll, Steps, Finish, Start, Origin, Lossy, Tame, Unmixed;
    var p0, start, w := Origin(request, prefix, num), Start(request, prefix, num, base), Watching(request.hasTools);
    RegularIsTameAndUnmixed(w, cs);
    if Unmixed(w, cs) {
      RegularRunIsBracketed(rules, request, prefix, num, base, cs, false, parse);
    } else {
      StartTracks(rules, request, prefix, num, base);
      MixedRunSpoils(rules, p0, start, w, cs);
      SpoiledFinish(rules, p0, Steps(start, cs), parse);
    }
  }
}
