/** What the finished items of a response say, in terms of what the engine sent. */
module ResponseContents {
  import opened KeyOrder
  import opened ResponseEvents
  import opened ResponseProtocol
  import opened ResponseGenerator
  import opened ResponseRegularRuns
  import A = AssistantOutput

  // ---- Items without their ids ------------------------------------------------------------------

  datatype Content = Thought(text: string) | Said(text: string) | Called(name: string, arguments: string)

  function ContentOf(item: Item): Content {
    match item
    case MessageItem(_, text) => Said(text)
    case ToolItem(_, _, name, arguments) => Called(name, arguments)
    case ReasoningItem(_, summary) => Thought(summary)
  }

  function Contents(items: seq<Item>): (r: seq<Content>)
    ensures |r| == |items|
  {
    seq(|items|, (i: nat) requires i < |items| => ContentOf(items[i]))
  }

  // ---- What the engine sent ---------------------------------------------------------------------

  // One semantic delta of the engine
  datatype Part = TextPart(content: string) | CallPart(delta: ToolDelta)

  function CallParts(ds: seq<ToolDelta>): (r: seq<Part>)
    ensures |r| == |ds|
  {
    seq(|ds|, (i: nat) requires i < |ds| => CallPart(ds[i]))
  }

  /** The semantic deltas of one engine output: tool deltas first, then content. */
  function PartsOf(c: Completion): seq<Part> {
    match c.semantic
    case None => []
    case Some(s) => CallParts(s.toolDeltas) + if s.content == [] then [] else [TextPart(s.content)]
  }

  function Parts(cs: seq<Completion>): seq<Part> {
    if cs == [] then [] else Parts(cs[..|cs| - 1]) + PartsOf(cs[|cs| - 1])
  }

  /** The last reasoning text that was given, if any. */
  function LastReasoning(cs: seq<Completion>): string {
    if cs == [] then []
    else if cs[|cs| - 1].reasoning != [] then cs[|cs| - 1].reasoning
    else LastReasoning(cs[..|cs| - 1])
  }

  function LastText(cs: seq<Completion>): string { if cs == [] then [] else cs[|cs| - 1].text }

  // ---- What has to become of it -----------------------------------------------------------------

  /** Two neighbours belong together: both are content, or both are deltas of one tool index. */
  predicate Together(a: Part, b: Part) {
    if a.CallPart? then b.CallPart? && a.delta.index == b.delta.index else b.TextPart?
  }

  /** Where the last maximal run of parts that belong together begins. */
  function LastRun(parts: seq<Part>): (n: nat)
    requires parts != []
    ensures n < |parts|
    ensures forall i | n <= i < |parts| :: Together(parts[|parts| - 1], parts[i])
    ensures n > 0 ==> !Together(parts[|parts| - 1], parts[n - 1])
  {
    var k := |parts| - 1;
    if k > 0 && Together(parts[k - 1], parts[k]) then LastRun(parts[..k]) else k
  }

  /** All content and all argument deltas of a run. */
  function Joined(run: seq<Part>): string {
    if run == [] then []
    else Joined(run[..|run| - 1]) + match run[|run| - 1] case TextPart(s) => s case CallPart(d) => d.arguments
  }

  /** The part of a run of tool deltas from the first one that has a name. */
  function FromName(run: seq<Part>): (r: seq<Part>)
    ensures r != [] ==> r[0].CallPart? && r[0].delta.name.Some?
  {
    if run == [] then []
    else if run[0].CallPart? && run[0].delta.name.Some? then run
    else FromName(run[1..])
  }

  /** A run of content is one message; a run of tool deltas is one call from its first name on, or
      nothing when it has none. */
  function Turn(run: seq<Part>): seq<Content>
    requires run != []
  {
    if run[0].TextPart? then [Said(Joined(run))]
    else
      var named := FromName(run);
      if named == [] then [] else [Called(named[0].delta.name.value, Joined(named))]
  }

  /** The messages and calls of an engine output, one run after another. */
  function Turns(parts: seq<Part>): seq<Content>
    decreases |parts|
  {
    if parts == [] then [] else Turns(parts[..LastRun(parts)]) + Turn(parts[LastRun(parts)..])
  }

  /** Turns is what joining maximal runs means: one run gives its turn, and where two neighbours do not
      belong together both sides are independent. */
  lemma {:induction false} TurnsSplit(a: seq<Part>, b: seq<Part>)
    requires a != [] && b != [] && !Together(a[|a| - 1], b[0])
    ensures Turns(a + b) == Turns(a) + Turns(b)
    decreases |b|
  {
    hide LastRun, Turn, Turns;
    var all, n := a + b, LastRun(b);
    LastRunIn(a, b);
    TurnsLast(all);
    TurnsLast(b);
    assert all[..|a| + n] == a + b[..n] && all[|a| + n..] == b[n..];
    if n > 0 {
      TurnsSplit(a, b[..n]);
      assert Turns(a) + Turns(b[..n]) + Turn(b[n..]) == Turns(a) + (Turns(b[..n]) + Turn(b[n..]));
    } else {
      assert a + b[..n] == a;
      NoTurns();
      assert b[..n] == [] && [] + Turn(b[n..]) == Turn(b[n..]);
    }
  }

  lemma TurnsLast(parts: seq<Part>)
    requires parts != []
    ensures Turns(parts) == Turns(parts[..LastRun(parts)]) + Turn(parts[LastRun(parts)..])
  {
    hide LastRun, Turn;
  }

  lemma NoTurns()
    ensures Turns([]) == []
  {
  }

  lemma {:induction false} LastRunIn(a: seq<Part>, b: seq<Part>)
    requires a != [] && b != [] && !Together(a[|a| - 1], b[0])
    ensures LastRun(a + b) == |a| + LastRun(b)
    decreases |b|
  {
    var all, k := a + b, |b| - 1;
    if k > 0 {
      assert all[..|a| + k] == a + b[..k];
      LastRunIn(a, b[..k]);
    }
  }

  // ---- One more part ----------------------------------------------------------------------------

  lemma JoinedSnoc(run: seq<Part>, p: Part)
    ensures Joined(run + [p]) == Joined(run) + match p case TextPart(s) => s case CallPart(d) => d.arguments
  {
    assert (run + [p])[..|run|] == run;
  }

  lemma {:induction false} FromNameSnoc(run: seq<Part>, p: Part)
    ensures FromName(run + [p]) == if FromName(run) != [] then FromName(run) + [p] else FromName([p])
    decreases |run|
  {
    if run == [] {
      assert run + [p] == [p];
    } else {
      assert (run + [p])[0] == run[0] && (run + [p])[1..] == run[1..] + [p];
      FromNameSnoc(run[1..], p);
    }
  }

  lemma LastRunSnoc(parts: seq<Part>, p: Part)
    ensures var all := parts + [p];
            LastRun(all) == if parts != [] && Together(parts[|parts| - 1], p) then LastRun(parts) else |parts|
  {
    assert (parts + [p])[..|parts|] == parts;
  }

  // ---- The generator writes the turns -----------------------------------------------------------

  function OpenContent(active: Active): seq<Content> {
    if active.NoActive? then [] else [ContentOf(ActiveItem(active))]
  }

  /** The open item is the turn of this run. */
  ghost predicate OpenIs(active: Active, run: seq<Part>) {
    if run == [] then active.NoActive?
    else if run[0].TextPart? then active.ActiveMessage? && active.text == Joined(run)
    else
      var named := FromName(run);
      if named == [] then active.NoActive?
      else
        && active.ActiveTool? && active.toolIndex == run[0].delta.index
        && active.name == named[0].delta.name.value && active.arguments == Joined(named)
  }

  /** Finished items and the open item say what the parts say. */
  ghost predicate Wrote(g: Gen, before: seq<Content>, parts: seq<Part>) {
    if parts == [] then Contents(g.completed) == before && g.active.NoActive?
    else
      var n := LastRun(parts);
      Contents(g.completed) == before + Turns(parts[..n]) && OpenIs(g.active, parts[n..])
  }

  lemma OpenIsTurn(active: Active, run: seq<Part>)
    requires OpenIs(active, run) && run != []
    ensures OpenContent(active) == Turn(run)
  {
  }

  lemma WroteAll(g: Gen, before: seq<Content>, parts: seq<Part>)
    requires Wrote(g, before, parts)
    ensures Contents(g.completed) + OpenContent(g.active) == before + Turns(parts)
  {
    hide OpenIs, LastRun, Turn;
    if parts != [] {
      hide OpenContent;
      OpenIsTurn(g.active, parts[LastRun(parts)..]);
    }
  }

  /** Nothing is open any more, and the finished items say what the parts say. */
  ghost predicate Settled(g: Gen, before: seq<Content>, parts: seq<Part>) {
    g.active.NoActive? && Contents(g.completed) == before + Turns(parts)
  }

  lemma SettledWrote(g: Gen, before: seq<Content>, parts: seq<Part>)
    requires Wrote(g, before, parts)
    ensures Settled(if g.active.NoActive? then g else CloseActive(g), before, parts)
  {
    hide OpenIs, LastRun, Turns, Wrote;
    WroteAll(g, before, parts);
    if !g.active.NoActive? {
      assert Contents(CloseActive(g).completed) == Contents(g.completed) + OpenContent(g.active);
    }
  }

  lemma BeginsWrote(g: Gen, before: seq<Content>, parts: seq<Part>, p: Part)
    requires parts == [] || !Together(parts[|parts| - 1], p)
    requires Contents(g.completed) == before + Turns(parts) && OpenIs(g.active, [p])
    ensures Wrote(g, before, parts + [p])
  {
    hide OpenIs, Turns, LastRun;
    LastRunSnoc(parts, p);
    assert (parts + [p])[..|parts|] == parts && (parts + [p])[|parts|..] == [p];
  }

  lemma GoesOnWrote(g: Gen, g': Gen, before: seq<Content>, parts: seq<Part>, p: Part)
    requires Wrote(g, before, parts) && parts != [] && Together(parts[|parts| - 1], p)
    requires g'.completed == g.completed && OpenIs(g'.active, parts[LastRun(parts)..] + [p])
    ensures Wrote(g', before, parts + [p])
  {
    hide OpenIs, Turns, LastRun;
    LastRunSnoc(parts, p);
    var n := LastRun(parts);
    assert (parts + [p])[..n] == parts[..n] && (parts + [p])[n..] == parts[n..] + [p];
  }

  lemma ToolDeltaWrites(g: Gen, before: seq<Content>, parts: seq<Part>, d: ToolDelta)
    requires Wrote(g, before, parts)
    ensures Wrote(OnToolDelta(g, d), before, parts + [CallPart(d)])
  {
    hide Turns, Wrote, LastRun, OpenIs, Contents;
    var p, g' := CallPart(d), OnToolDelta(g, d);
    if parts != [] && Together(parts[|parts| - 1], p) {
      var run := parts[LastRun(parts)..];
      assert Together(parts[|parts| - 1], run[0]);
      OpenRun(g, before, parts);
      ToolDeltaGoesOn(g, run, d);
      GoesOnWrote(g, g', before, parts, p);
    } else {
      if parts != [] { LastOpen(g, before, parts); } else { NothingOpen(g, before); }
      var g1 := if g.active.NoActive? then g else CloseActive(g);
      SettledWrote(g, before, parts);
      ToolDeltaBegins(g1, d);
      BeginsWrote(g', before, parts, p);
    }
  }

  lemma NothingOpen(g: Gen, before: seq<Content>)
    requires Wrote(g, before, [])
    ensures g.active.NoActive?
  {
  }

  lemma OpenRun(g: Gen, before: seq<Content>, parts: seq<Part>)
    requires Wrote(g, before, parts) && parts != []
    ensures OpenIs(g.active, parts[LastRun(parts)..])
  {
  }

  /** What is open belongs to the last part. */
  lemma LastOpen(g: Gen, before: seq<Content>, parts: seq<Part>)
    requires Wrote(g, before, parts) && parts != []
    ensures var last := parts[|parts| - 1];
            if last.TextPart? then g.active.ActiveMessage?
            else g.active.NoActive? || (g.active.ActiveTool? && g.active.toolIndex == last.delta.index)
  {
    var run := parts[LastRun(parts)..];
    assert Together(parts[|parts| - 1], run[0]);
  }

  lemma ToolDeltaGoesOn(g: Gen, run: seq<Part>, d: ToolDelta)
    requires run != [] && run[0].CallPart? && run[0].delta.index == d.index && OpenIs(g.active, run)
    ensures OnToolDelta(g, d).completed == g.completed && OpenIs(OnToolDelta(g, d).active, run + [CallPart(d)])
  {
    var p := CallPart(d);
    assert (run + [p])[0] == run[0];
    FromNameSnoc(run, p);
    var named := FromName(run);
    if named == [] {
      ToolDeltaBegins(g, d);
      assert OpenIs(OnToolDelta(g, d).active, [p]);
    } else {
      hide FromName;
      JoinedSnoc(named, p);
      assert (named + [p])[0] == named[0];
      hide Joined;
      ArgumentsAdded(g, d);
    }
  }

  lemma ArgumentsAdded(g: Gen, d: ToolDelta)
    requires g.active.ActiveTool? && g.active.toolIndex == d.index
    ensures OnToolDelta(g, d).completed == g.completed
    ensures OnToolDelta(g, d).active == g.active.(arguments := g.active.arguments + d.arguments)
  {
  }

  lemma ToolDeltaBegins(g: Gen, d: ToolDelta)
    requires g.active.NoActive?
    ensures OnToolDelta(g, d).completed == g.completed && OpenIs(OnToolDelta(g, d).active, [CallPart(d)])
  {
    OneNamed(d);
  }

  lemma OneNamed(d: ToolDelta)
    ensures FromName([CallPart(d)]) == if d.name.Some? then [CallPart(d)] else []
    ensures Joined([CallPart(d)]) == d.arguments
  {
    assert [CallPart(d)] == [] + [CallPart(d)] && [CallPart(d)][1..] == [];
    JoinedSnoc([], CallPart(d));
  }

  lemma {:induction false} ToolDeltasWrite(g: Gen, before: seq<Content>, parts: seq<Part>, ds: seq<ToolDelta>)
    requires Wrote(g, before, parts)
    ensures Wrote(OnToolDeltas(g, ds), before, parts + CallParts(ds))
    decreases ds
  {
    hide Wrote, OnToolDelta;
    if ds == [] {
      assert parts + CallParts(ds) == parts;
    } else {
      ToolDeltaWrites(g, before, parts, ds[0]);
      ToolDeltasWrite(OnToolDelta(g, ds[0]), before, parts + [CallPart(ds[0])], ds[1..]);
      assert parts + [CallPart(ds[0])] + CallParts(ds[1..]) == parts + CallParts(ds);
    }
  }

  lemma ContentWrites(g: Gen, before: seq<Content>, parts: seq<Part>, content: string)
    requires Wrote(g, before, parts) && content != []
    ensures Wrote(OnContent(g, content), before, parts + [TextPart(content)])
  {
    hide Turns, Wrote, LastRun, OpenIs, Contents;
    var p, g' := TextPart(content), OnContent(g, content);
    if parts != [] && Together(parts[|parts| - 1], p) {
      var run := parts[LastRun(parts)..];
      assert Together(parts[|parts| - 1], run[0]);
      OpenRun(g, before, parts);
      ContentGoesOn(g, run, content);
      GoesOnWrote(g, g', before, parts, p);
    } else {
      if parts != [] { LastOpen(g, before, parts); } else { NothingOpen(g, before); }
      var g1 := if g.active.NoActive? then g else CloseActive(g);
      SettledWrote(g, before, parts);
      ContentBegins(g1, content);
      BeginsWrote(g', before, parts, p);
    }
  }

  lemma ContentGoesOn(g: Gen, run: seq<Part>, content: string)
    requires run != [] && run[0].TextPart? && content != [] && OpenIs(g.active, run)
    ensures OnContent(g, content).completed == g.completed
    ensures OpenIs(OnContent(g, content).active, run + [TextPart(content)])
  {
    assert (run + [TextPart(content)])[0] == run[0];
    JoinedSnoc(run, TextPart(content));
  }

  lemma ContentBegins(g: Gen, content: string)
    requires g.active.NoActive? && content != []
    ensures OnContent(g, content).completed == g.completed
    ensures OpenIs(OnContent(g, content).active, [TextPart(content)])
  {
    assert [TextPart(content)] == [] + [TextPart(content)];
    JoinedSnoc([], TextPart(content));
  }

  // ---- Whole runs -------------------------------------------------------------------------------

  function Thoughts(reasoning: string): seq<Content> { if reasoning == [] then [] else [Thought(reasoning)] }

  /** What a generator has written after these engine outputs. */
  ghost predicate Writes(g: Gen, prefix: seq<Item>, seen: seq<Completion>) {
    && g.reasoning == LastReasoning(seen) && g.text.text == LastText(seen)
    && (g.semantic <==> Parts(seen) != [])
    && if g.semantic then Wrote(g, Contents(prefix) + Thoughts(g.reasoning), Parts(seen)) else g.completed == prefix
  }

  lemma PartsSnoc(seen: seq<Completion>, c: Completion)
    ensures Parts(seen + [c]) == Parts(seen) + PartsOf(c)
    ensures PartsOf(c) == [] <==> !Effective(c)
    ensures LastReasoning(seen + [c]) == if c.reasoning != [] then c.reasoning else LastReasoning(seen)
    ensures LastText(seen + [c]) == c.text
  {
    assert (seen + [c])[..|seen|] == seen;
  }

  lemma SemanticWrites(g: Gen, before: seq<Content>, parts: seq<Part>, c: Completion)
    requires Effective(c) && Wrote(EndReasoning(g.(semantic := true)), before, parts)
    ensures Wrote(OnSemantic(g, c.semantic.value), before, parts + PartsOf(c))
  {
    hide Wrote, EndReasoning, OnContent, OnToolDeltas;
    var s, g1 := c.semantic.value, EndReasoning(g.(semantic := true));
    ToolDeltasWrite(g1, before, parts, s.toolDeltas);
    var g2, called := OnToolDeltas(g1, s.toolDeltas), parts + CallParts(s.toolDeltas);
    if s.content == [] {
      assert called == parts + PartsOf(c);
      NoContent(g2);
    } else {
      ContentWrites(g2, before, called, s.content);
      assert called + [TextPart(s.content)] == parts + PartsOf(c);
    }
  }

  lemma NoContent(g: Gen)
    ensures OnContent(g, []) == g
  {
  }

  /** Reasoning is an open item until answer output starts. */
  predicate Shaped(g: Gen) {
    if g.semantic then !g.reasoningEmitted else g.active.NoActive? && (g.reasoningEmitted <==> g.reasoning != [])
  }

  lemma InStepIsShaped(rules: Rules, p0: Proto, g: Gen, w: Watch)
    requires InStep(rules, p0, g, w)
    ensures Shaped(g) && Agrees(w, g) && A.Sound(g.text)
    ensures !g.semantic ==> (g.messageOpen <==> g.text.streamed != [])
  {
    hide AcceptAll, A.Sound;
  }

  /** The reasoning, if any, becomes the item ahead of the turns. */
  lemma ReasoningWritten(g: Gen, prefix: seq<Item>)
    requires !g.semantic && Shaped(g) && g.completed == prefix
    ensures Wrote(EndReasoning(g.(semantic := true)), Contents(prefix) + Thoughts(g.reasoning), [])
  {
    assert Contents(prefix + [ReasoningItem(g.rid, g.reasoning)]) == Contents(prefix) + [Thought(g.reasoning)];
    assert Contents(prefix) + [] == Contents(prefix);
  }

  /** Reasoning before the semantic part of a step. */
  lemma ReasoningShaped(g: Gen, reasoning: string)
    requires Shaped(g) && (g.semantic ==> reasoning == [] || reasoning == g.reasoning)
    ensures var g1 := OnReasoning(g, reasoning);
            && Shaped(g1) && g1.reasoning == (if reasoning == [] then g.reasoning else reasoning)
            && g1.completed == g.completed && g1.semantic == g.semantic && g1.text == g.text
            && (g.semantic ==> g1 == g)
  {
  }

  lemma TextAsideWritten(g: Gen, ts: A.TextState, before: seq<Content>, parts: seq<Part>)
    ensures Wrote(g, before, parts) ==> Wrote(g.(text := ts), before, parts)
    ensures g.semantic && !g.reasoningEmitted ==> EndReasoning(g.(semantic := true)) == g
  {
  }

  lemma OnPlainKeeps(g: Gen, delta: string)
    ensures var g1 := OnPlain(g, delta);
            && g1.completed == g.completed && g1.semantic == g.semantic && g1.reasoning == g.reasoning
            && g1.text == g.text && g1.active == g.active && (delta == [] ==> g1 == g)
  {
  }

  lemma StepWrites(g: Gen, w: Watch, prefix: seq<Item>, seen: seq<Completion>, c: Completion)
    requires Writes(g, prefix, seen) && Shaped(g) && Agrees(w, g) && RegularStep(w, c)
    ensures Writes(Step(g, c), prefix, seen + [c])
  {
    hide Wrote, Parts, PartsOf, LastReasoning, LastText, Contents, OnReasoning, OnPlain, OnSemantic, EndReasoning;
    hide A.Next, A.Delta;
    PartsSnoc(seen, c);
    ReasoningShaped(g, c.reasoning);
    NextText(g.text, c.text);
    var g1 := OnReasoning(g, c.reasoning);
    var g2 := g1.(text := A.Next(g1.text, c.text));
    var before := Contents(prefix) + Thoughts(g2.reasoning);
    TextAsideWritten(g1, g2.text, before, Parts(seen));
    if Effective(c) {
      if g.semantic {
        TextAsideWritten(g2, g2.text, before, Parts(seen));
      } else {
        ReasoningWritten(g2, prefix);
      }
      SemanticWrites(g2, before, Parts(seen), c);
      SemanticKeeps(g2, c.semantic.value);
      IsNowSemantic(g2, c.semantic.value);
    } else {
      OnPlainKeeps(g2, A.Delta(g1.text, c.text));
      assert Parts(seen + [c]) == Parts(seen);
    }
  }

  lemma NextText(ts: A.TextState, text: string)
    ensures A.Next(ts, text).text == text
  {
  }

  lemma IsNowSemantic(g: Gen, s: SemanticDelta)
    ensures OnSemantic(g, s).semantic
  {
    hide OnToolDelta;
    DeltasKeepMode(EndReasoning(g.(semantic := true)), s.toolDeltas);
  }

  lemma {:induction false} DeltasKeepMode(g: Gen, ds: seq<ToolDelta>)
    ensures OnToolDeltas(g, ds).semantic == g.semantic
    decreases ds
  {
    if ds != [] { DeltasKeepMode(OnToolDelta(g, ds[0]), ds[1..]); }
  }

  lemma {:induction false} StepsWrite(rules: Rules, p0: Proto, g: Gen, w: Watch, prefix: seq<Item>,
                                      seen: seq<Completion>, cs: seq<Completion>)
    requires InStep(rules, p0, g, w) && Regular(w, cs) && Writes(g, prefix, seen)
    ensures Writes(Steps(g, cs), prefix, seen + cs)
    decreases cs
  {
    hide InStep, Writes, RegularStep, Step, Watched;
    if cs == [] {
      assert seen + cs == seen;
    } else {
      InStepIsShaped(rules, p0, g, w);
      StepWrites(g, w, prefix, seen, cs[0]);
      StepTracks(rules, p0, g, w, cs[0]);
      StepsWrite(rules, p0, Step(g, cs[0]), Watched(w, cs[0]), prefix, seen + [cs[0]], cs[1..]);
      assert seen + [cs[0]] + cs[1..] == seen + cs;
    }
  }

  /** What the engine's outputs say: the reasoning, then the messages and calls of its semantic deltas,
      or else the text as one message. */
  function Answer(cs: seq<Completion>, text: string): seq<Content> {
    Thoughts(LastReasoning(cs))
    + if Parts(cs) != [] then Turns(Parts(cs)) else if text == [] then [] else [Said(text)]
  }

  /** What the unfinished item of a stream says so far. */
  function OpenSays(open: Open): seq<Content> {
    match open
    case MessageText(_, text) => [Said(text)]
    case ToolArgs(_, _, name, args) => [Called(name, args)]
    case Reasoning(_, text) => [Thought(text)]
    case _ => []
  }

  /** Where the protocol stands, it has heard what was written. */
  lemma HeardIs(rules: Rules, p0: Proto, g: Gen, w: Watch, prefix: seq<Item>, cs: seq<Completion>)
    requires InStep(rules, p0, g, w) && Writes(g, prefix, cs)
    ensures var p := if g.semantic then SemProto(g) else PlainProto(g, g.text.streamed);
            Contents(p.done) + OpenSays(p.open) == Contents(prefix) + Answer(cs, g.text.streamed)
  {
    hide AcceptAll, LastReasoning, Parts, LastText, A.Sound, Wrote, Turns;
    if g.semantic {
      WroteAll(g, Contents(prefix) + Thoughts(g.reasoning), Parts(cs));
    } else {
      assert Contents(prefix + [ReasoningItem(g.rid, g.reasoning)]) == Contents(prefix) + [Thought(g.reasoning)];
    }
  }

  /** The end of a run with semantic deltas. */
  lemma FinishSemanticSays(g: Gen, prefix: seq<Item>, cs: seq<Completion>, parse: A.Parser)
    requires Writes(g, prefix, cs) && Shaped(g) && g.semantic
    ensures var outcome := Finish(g, parse);
            outcome.Finished? && Contents(outcome.output) == Contents(prefix) + Answer(cs, LastText(cs))
  {
    hide LastReasoning, Parts, LastText, Wrote, Turns;
    WroteAll(g, Contents(prefix) + Thoughts(g.reasoning), Parts(cs));
    assert EndReasoning(g) == g;
    var g1 := if g.active.NoActive? then g else CloseActive(g);
    assert Contents(g1.completed) == Contents(g.completed) + OpenContent(g.active);
    assert Contents(prefix) + Thoughts(g.reasoning) + Turns(Parts(cs)) == Contents(prefix) + Answer(cs, LastText(cs));
  }

  /** The end of a run without them. */
  lemma FinishPlainSays(g: Gen, prefix: seq<Item>, cs: seq<Completion>, parse: A.Parser)
    requires Writes(g, prefix, cs) && Shaped(g) && !g.semantic && A.Sound(g.text)
    requires g.messageOpen <==> g.text.streamed != []
    ensures var outcome := Finish(g, parse);
            if A.Normalized(parse, LastText(cs), g.text.hasTools).CallsOutput? then outcome.Raised?
            else outcome.Finished? && Contents(outcome.output) == Contents(prefix) + Answer(cs, LastText(cs))
  {
    hide LastReasoning, Parts, LastText, Wrote, Turns, A.ParseIfPresent, EndPlain, EndPlainReasoning, PlainOutput,
        A.Sound;
    var text := LastText(cs);
    if A.Normalized(parse, text, g.text.hasTools).TextOutput? {
      var g1 := if g.reasoningEmitted && !g.messageOpen then EndPlainReasoning(g) else g;
      EndedKeeps(g);
      WholeText(parse, g.text);
      PlainOutputSays(g1, A.Deferred(parse, g.text));
    }
  }

  /** Text that is no tool call is all held back, or else is streamed and not empty. */
  lemma WholeText(parse: A.Parser, ts: A.TextState)
    requires A.Sound(ts) && A.Normalized(parse, ts.text, ts.hasTools).TextOutput?
    ensures A.Deferred(parse, ts) == if ts.streamed == [] then ts.text else []
    ensures ts.streamed != [] ==> ts.text != []
  {
    hide A.ParseIfPresent;
  }

  lemma PlainOutputSays(g: Gen, deferred: string)
    requires (g.reasoningEmitted <==> g.reasoning != []) && (g.messageOpen ==> deferred == [] && g.text.text != [])
    ensures var text := if g.messageOpen then g.text.text else deferred;
            Contents(PlainOutput(g, deferred)) ==
              Contents(g.completed) + Thoughts(g.reasoning) + if text == [] then [] else [Said(text)]
  {
    var text := if g.messageOpen then g.text.text else deferred;
    var thoughts: seq<Item> := if g.reasoningEmitted then [ReasoningItem(g.rid, g.reasoning)] else [];
    var said: seq<Item> := if text == [] then [] else [MessageItem(g.mid, text)];
    assert PlainOutput(g, deferred) == g.completed + thoughts + said;
    ContentsConcat(g.completed + thoughts, said);
    ContentsConcat(g.completed, thoughts);
  }

  lemma ContentsConcat(a: seq<Item>, b: seq<Item>)
    ensures Contents(a + b) == Contents(a) + Contents(b)
  {
  }

  lemma EndedKeeps(g: Gen)
    ensures var g1 := EndPlainReasoning(g);
            && g1.completed == g.completed && g1.reasoningEmitted == g.reasoningEmitted && g1.rid == g.rid
            && g1.reasoning == g.reasoning && g1.messageOpen == g.messageOpen && g1.mid == g.mid && g1.text == g.text
  {
  }

  /** What a regular run says. A finished one reports the prefix calls, the reasoning, and then exactly
      the messages and calls that the engine's semantic deltas spell, or its last text. One that breaks
      off or raises has said as much of it as the engine has sent. It raises exactly when its text is a
      tool call of a request with tools. */
  lemma RegularRunSays(rules: Rules, request: Request, prefix: seq<Item>, num: nat, base: nat,
                       cs: seq<Completion>, engineFails: bool, parse: A.Parser)
    requires forall i | 0 <= i < |prefix| :: prefix[i].ToolItem?
    requires Distinct(prefix) && Below(prefix, base) && Regular(Watching(request.hasTools), cs)
    ensures var outcome := Generate(Start(request, prefix, num, base), cs, engineFails, parse);
            var reached := AcceptAll(rules, Origin(request, prefix, num), outcome.g.out);
            && (outcome.Failed? <==> engineFails)
            && (outcome.Raised? <==> !engineFails && Parts(cs) == []
                                     && A.Normalized(parse, LastText(cs), request.hasTools).CallsOutput?)
            && if outcome.Finished? then Contents(outcome.output) == Contents(prefix) + Answer(cs, LastText(cs))
               else
                 var streamed := WatchedAll(Watching(request.hasTools), cs).text.streamed;
                 && reached.Some?
                 && Contents(reached.value.done) + OpenSays(reached.value.open)
                    == Contents(prefix) + Answer(cs, streamed)
  {
    hide AcceptAll, Steps, Finish, Start, Origin, Writes, Answer, InStep, Parts, LastText, Contents;
    var p0, start, w := Origin(request, prefix, num), Start(request, prefix, num, base), Watching(request.hasTools);
    StartTracks(rules, request, prefix, num, base);
    StartWrites(request, prefix, num, base);
    StepsTrack(rules, p0, start, w, cs);
    StepsWrite(rules, p0, start, w, prefix, [], cs);
    assert [] + cs == cs;
    var g, w' := Steps(start, cs), WatchedAll(w, cs);
    InStepIsShaped(rules, p0, g, w');
    HeardIs(rules, p0, g, w', prefix, cs);
    StillTools(w, cs);
    WritesText(g, prefix, cs);
    if engineFails {
      FailedHears(rules, p0, g, w');
    } else if g.semantic {
      FinishSemanticSays(g, prefix, cs, parse);
    } else {
      FinishPlainSays(g, prefix, cs, parse);
      if Finish(g, parse).Raised? { RaisedHears(rules, p0, g, w', parse); }
    }
  }

  lemma StartWrites(request: Request, prefix: seq<Item>, num: nat, base: nat)
    requires forall i | 0 <= i < |prefix| :: prefix[i].ToolItem?
    ensures Writes(Start(request, prefix, num, base), prefix, [])
  {
    hide PrefixEvents;
  }

  lemma WritesText(g: Gen, prefix: seq<Item>, cs: seq<Completion>)
    requires Writes(g, prefix, cs)
    ensures g.text.text == LastText(cs) && (g.semantic <==> Parts(cs) != [])
  {
  }

  lemma {:induction false} StillTools(w: Watch, cs: seq<Completion>)
    ensures WatchedAll(w, cs).text.hasTools == w.text.hasTools
    decreases cs
  {
    if cs != [] { StillTools(Watched(w, cs[0]), cs[1..]); }
  }

  /** Failure events leave what was heard. */
  lemma FailedHears(rules: Rules, p0: Proto, g: Gen, w: Watch)
    requires InStep(rules, p0, g, w)
    ensures var p := if g.semantic then SemProto(g) else PlainProto(g, g.text.streamed);
            var reached := AcceptAll(rules, p0, Emit(g, Failure(g.num)).out);
            reached.Some? && reached.value.done == p.done && reached.value.open == p.open
  {
    hide AcceptAll, A.Sound;
    var p := if g.semantic then SemProto(g) else PlainProto(g, g.text.streamed);
    AcceptFailure(rules, p);
    EmitTracks(rules, p0, g, p, Failure(g.num));
  }

  /** A run that raises has at most ended its reasoning item. */
  lemma RaisedHears(rules: Rules, p0: Proto, g: Gen, w: Watch, parse: A.Parser)
    requires InStep(rules, p0, g, w) && !g.semantic && Finish(g, parse).Raised?
    ensures var p, reached := PlainProto(g, g.text.streamed), AcceptAll(rules, p0, Finish(g, parse).g.out);
            && reached.Some?
            && Contents(reached.value.done) + OpenSays(reached.value.open) == Contents(p.done) + OpenSays(p.open)
  {
    hide AcceptAll, A.Sound, A.Normalized;
    if !g.messageOpen {
      EndPlainReasoningTracks(rules, p0, g);
      assert Contents(g.completed + [ReasoningItem(g.rid, g.reasoning)])
          == Contents(g.completed) + [Thought(g.reasoning)];
      assert g.completed + [] == g.completed;
    }
  }

  // ---- Call ids ---------------------------------------------------------------------------------

  /** The new call ids among the items, in order. */
  function FreshCalls(items: seq<Item>): seq<nat> {
    if items == [] then []
    else
      var item := items[|items| - 1];
      FreshCalls(items[..|items| - 1]) + if item.ToolItem? && item.callId.Fresh? then [item.callId.n] else []
  }

  function OpenItems(active: Active): seq<Item> { if active.NoActive? then [] else [ActiveItem(active)] }

  predicate Rising(ns: seq<nat>, bound: nat) {
    (forall i | 0 <= i < |ns| :: ns[i] < bound) && forall i, j | 0 <= i < j < |ns| :: ns[i] < ns[j]
  }

  /** Every new call id is larger than those before it. */
  ghost predicate CallsApart(g: Gen) { Rising(FreshCalls(g.completed) + FreshCalls(OpenItems(g.active)), g.ids) }

  lemma OneFresh(items: seq<Item>, item: Item)
    ensures FreshCalls(items + [item]) == FreshCalls(items) + FreshCalls([item])
    ensures FreshCalls([item]) == if item.ToolItem? && item.callId.Fresh? then [item.callId.n] else []
  {
    assert (items + [item])[..|items|] == items && [item][..0] == [];
  }

  lemma CloseActiveApart(g: Gen)
    requires CallsApart(g) && !g.active.NoActive?
    ensures CallsApart(CloseActive(g)) && CloseActive(g).active.NoActive?
  {
    OneFresh(g.completed, ActiveItem(g.active));
    assert FreshCalls(CloseActive(g).completed) + [] == FreshCalls(g.completed) + FreshCalls(OpenItems(g.active));
  }

  lemma OpenToolApart(g: Gen, toolIndex: int, name: string)
    requires CallsApart(g) && g.active.NoActive?
    ensures CallsApart(OpenTool(g, toolIndex, name))
  {
    var item := ActiveItem(OpenTool(g, toolIndex, name).active);
    OneFresh([], item);
    assert FreshCalls(g.completed) + FreshCalls(OpenItems(g.active)) == FreshCalls(g.completed);
    assert OpenItems(OpenTool(g, toolIndex, name).active) == [item] && FreshCalls([item]) == [g.ids + 1];
  }

  lemma SameCallsApart(g: Gen, g': Gen)
    requires CallsApart(g) && g'.completed == g.completed && g.ids <= g'.ids
    requires FreshCalls(OpenItems(g'.active)) == FreshCalls(OpenItems(g.active))
    ensures CallsApart(g')
  {
  }

  lemma AddArgumentsApart(g: Gen, delta: string)
    requires CallsApart(g) && g.active.ActiveTool?
    ensures CallsApart(AddArguments(g, delta))
  {
    OneFresh([], ActiveItem(g.active));
    OneFresh([], ActiveItem(AddArguments(g, delta).active));
    SameCallsApart(g, AddArguments(g, delta));
  }

  lemma ToolDeltaApart(g: Gen, d: ToolDelta)
    requires CallsApart(g)
    ensures CallsApart(OnToolDelta(g, d))
  {
    hide CallsApart, CloseActive, OpenTool, AddArguments;
    var leaves := g.active.ActiveMessage? || (g.active.ActiveTool? && g.active.toolIndex != d.index);
    if leaves { CloseActiveApart(g); }
    var g1 := if leaves then CloseActive(g) else g;
    if g1.active.ActiveTool? {
      AddArgumentsApart(g1, d.arguments);
    } else if d.name.Some? {
      OpenToolApart(g1, d.index, d.name.value);
      OpenToolKeeps(g1, d.index, d.name.value);
      AddArgumentsApart(OpenTool(g1, d.index, d.name.value), d.arguments);
    }
  }

  lemma {:induction false} ToolDeltasApart(g: Gen, ds: seq<ToolDelta>)
    requires CallsApart(g)
    ensures CallsApart(OnToolDeltas(g, ds))
    decreases ds
  {
    hide CallsApart, OnToolDelta;
    if ds != [] {
      ToolDeltaApart(g, ds[0]);
      ToolDeltasApart(OnToolDelta(g, ds[0]), ds[1..]);
    }
  }

  lemma ContentApart(g: Gen, content: string)
    requires CallsApart(g)
    ensures CallsApart(OnContent(g, content))
  {
    if content != [] {
      var g1 := g;
      if g.active.ActiveTool? {
        CloseActiveApart(g);
        g1 := CloseActive(g);
      }
      var g3 := OnContent(g, content);
      OneFresh([], ActiveItem(g3.active));
      if g1.active.ActiveMessage? { OneFresh([], ActiveItem(g1.active)); }
      hide FreshCalls;
      SameCallsApart(g1, g3);
    }
  }

  lemma EndReasoningApart(g: Gen)
    requires CallsApart(g)
    ensures CallsApart(EndReasoning(g))
  {
    OneFresh(g.completed, ReasoningItem(g.rid, g.reasoning));
    assert FreshCalls(g.completed) + [] == FreshCalls(g.completed);
  }

  lemma StepApart(g: Gen, c: Completion)
    requires CallsApart(g)
    ensures CallsApart(Step(g, c))
  {
    var g1 := OnReasoning(g, c.reasoning);
    var g2 := g1.(text := A.Next(g1.text, c.text));
    assert g2.completed == g.completed && g2.active == g.active && g2.ids == g.ids;
    if Effective(c) {
      var g3 := g2.(semantic := true);
      SameCallsApart(g, g3);
      EndReasoningApart(g3);
      hide CallsApart, EndReasoning, OnToolDeltas, OnContent;
      ToolDeltasApart(EndReasoning(g3), c.semantic.value.toolDeltas);
      ContentApart(OnToolDeltas(EndReasoning(g3), c.semantic.value.toolDeltas), c.semantic.value.content);
    }
  }

  lemma {:induction false} StepsApart(g: Gen, cs: seq<Completion>)
    requires CallsApart(g)
    ensures CallsApart(Steps(g, cs))
    decreases cs
  {
    hide CallsApart, Step;
    if cs != [] {
      StepApart(g, cs[0]);
      StepsApart(Step(g, cs[0]), cs[1..]);
    }
  }

  lemma StartApart(request: Request, prefix: seq<Item>, num: nat, base: nat)
    requires (forall i | 0 <= i < |prefix| :: prefix[i].ToolItem?) && FreshCalls(prefix) == []
    ensures CallsApart(Start(request, prefix, num, base))
  {
    hide PrefixEvents;
  }

  lemma CompletedRises(g: Gen)
    requires CallsApart(g)
    ensures Rising(FreshCalls(g.completed), g.ids)
  {
    var done, open := FreshCalls(g.completed), FreshCalls(OpenItems(g.active));
    hide FreshCalls;
    assert (done + open)[..|done|] == done;
  }

  lemma FinishSemanticApart(g: Gen)
    requires CallsApart(g)
    ensures CallsApart(FinishSemantic(g))
  {
    hide CallsApart, EndReasoning, CloseActive;
    EndReasoningApart(g);
    if !EndReasoning(g).active.NoActive? { CloseActiveApart(EndReasoning(g)); }
  }

  lemma PlainOutputApart(g: Gen, deferred: string)
    ensures FreshCalls(PlainOutput(g, deferred)) == FreshCalls(g.completed)
  {
    var thoughts: seq<Item> := if g.reasoningEmitted then [ReasoningItem(g.rid, g.reasoning)] else [];
    var text := if deferred != [] then deferred else g.text.text;
    var said: seq<Item> := if g.messageOpen || deferred != [] then [MessageItem(g.mid, text)] else [];
    assert PlainOutput(g, deferred) == g.completed + thoughts + said;
    hide FreshCalls;
    NoFresh(g.completed, thoughts);
    NoFresh(g.completed + thoughts, said);
  }

  lemma NoFresh(items: seq<Item>, more: seq<Item>)
    requires |more| <= 1 && forall item | item in more :: !item.ToolItem?
    ensures FreshCalls(items + more) == FreshCalls(items)
  {
    if more == [] {
      assert items + more == items;
    } else {
      assert more == [more[0]] && more[0] in more;
      OneFresh(items, more[0]);
      assert FreshCalls(items) + [] == FreshCalls(items);
    }
  }

  /** In every run, regular or not, no two generated calls get the same call id. */
  lemma CallIdsAreDistinct(request: Request, prefix: seq<Item>, num: nat, base: nat, cs: seq<Completion>,
                           parse: A.Parser)
    requires (forall i | 0 <= i < |prefix| :: prefix[i].ToolItem?) && FreshCalls(prefix) == []
    ensures var outcome := Generate(Start(request, prefix, num, base), cs, false, parse);
            outcome.Finished? ==> Rising(FreshCalls(outcome.output), outcome.g.ids)
  {
    var start := Start(request, prefix, num, base);
    StartApart(request, prefix, num, base);
    StepsApart(start, cs);
    FinishApart(Steps(start, cs), parse);
  }

  lemma FinishApart(g: Gen, parse: A.Parser)
    requires CallsApart(g)
    ensures var outcome := Finish(g, parse);
            outcome.Finished? ==> Rising(FreshCalls(outcome.output), outcome.g.ids)
  {
    hide CallsApart, Rising, FreshCalls, A.Normalized, A.Deferred, PlainOutput, FinishSemantic;
    if g.semantic {
      FinishSemanticApart(g);
      CompletedRises(FinishSemantic(g));
    } else {
      var g1 := if g.reasoningEmitted && !g.messageOpen then EndPlainReasoning(g) else g;
      CompletedRises(g);
      PlainOutputApart(g1, A.Deferred(parse, g.text));
    }
  }
}
