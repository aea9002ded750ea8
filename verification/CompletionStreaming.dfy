/** Legacy completions: streaming deltas and token counts against the non-streaming response. */
module CompletionStreaming {
  import opened KeyOrder
  import A = AssistantOutput
  import I = CompletionInfill

  // text is cumulative and tokens is the number of token ids so far; no finish stands for None
  datatype Choice = Choice(index: nat, text: string, tokens: nat, finish: Option<string>)

  datatype Output = Output(choices: seq<Choice>, promptTokens: nat, finished: bool)

  datatype Chunk =
    | TextChunk(index: nat, delta: string)
    | FinishChunk(index: nat, reason: string)
    | UsageChunk(prompt: nat, completion: nat)
    | ErrorChunk
    | DoneChunk

  function Flatten(outputs: seq<Output>): seq<Choice> {
    if outputs == [] then [] else outputs[0].choices + Flatten(outputs[1..])
  }

  // ---- What streaming means, in terms of the history --------------------------------------------

  function LastText(seen: seq<Choice>, index: nat): string {
    if seen == [] then []
    else if seen[|seen| - 1].index == index then seen[|seen| - 1].text
    else LastText(seen[..|seen| - 1], index)
  }

  function LastTokens(seen: seq<Choice>, index: nat): nat {
    if seen == [] then 0
    else if seen[|seen| - 1].index == index then seen[|seen| - 1].tokens
    else LastTokens(seen[..|seen| - 1], index)
  }

  /** The chunks for one choice after the choices seen before. */
  function ChunksFor(seen: seq<Choice>, c: Choice): seq<Chunk> { Now(c, A.Suffix(c.text, LastText(seen, c.index))) }

  function Streamed(seen: seq<Choice>): seq<Chunk> {
    if seen == [] then [] else Streamed(seen[..|seen| - 1]) + ChunksFor(seen[..|seen| - 1], seen[|seen| - 1])
  }

  function NewTokens(seen: seq<Choice>, c: Choice): nat {
    if c.tokens > LastTokens(seen, c.index) then c.tokens - LastTokens(seen, c.index) else 0
  }

  function Counted(seen: seq<Choice>): nat {
    if seen == [] then 0 else Counted(seen[..|seen| - 1]) + NewTokens(seen[..|seen| - 1], seen[|seen| - 1])
  }

  function PromptTokens(outputs: seq<Output>): nat {
    if outputs == [] then 0 else outputs[|outputs| - 1].promptTokens
  }

  lemma Snoc(seen: seq<Choice>, c: Choice)
    ensures (seen + [c])[..|seen|] == seen
    ensures forall i :: LastText(seen + [c], i) == if c.index == i then c.text else LastText(seen, i)
    ensures forall i :: LastTokens(seen + [c], i) == if c.index == i then c.tokens else LastTokens(seen, i)
    ensures Streamed(seen + [c]) == Streamed(seen) + ChunksFor(seen, c)
    ensures Counted(seen + [c]) == Counted(seen) + NewTokens(seen, c)
  {
    hide ChunksFor, NewTokens;
    assert (seen + [c])[..|seen + [c]| - 1] == seen;
  }

  function TextOf(texts: map<nat, string>, index: nat): string { if index in texts then texts[index] else [] }

  function CountOf(counts: map<nat, nat>, index: nat): nat { if index in counts then counts[index] else 0 }

  /** The dictionaries hold the last text and count of every index seen. */
  ghost predicate Remembers(texts: map<nat, string>, counts: map<nat, nat>, seen: seq<Choice>) {
    forall k :: TextOf(texts, k) == LastText(seen, k) && CountOf(counts, k) == LastTokens(seen, k)
  }

  function Now(c: Choice, delta: string): seq<Chunk> {
    (if delta == [] then [] else [TextChunk(c.index, delta)])
    + (if c.finish.None? then [] else [FinishChunk(c.index, c.finish.value)])
  }

  lemma OneChoice(texts: map<nat, string>, counts: map<nat, nat>, seen: seq<Choice>, c: Choice)
    requires Remembers(texts, counts, seen)
    ensures Remembers(texts[c.index := c.text], counts[c.index := c.tokens], seen + [c])
    ensures Streamed(seen + [c]) == Streamed(seen) + Now(c, A.Suffix(c.text, TextOf(texts, c.index)))
    ensures Counted(seen + [c]) ==
              Counted(seen) + if c.tokens > CountOf(counts, c.index) then c.tokens - CountOf(counts, c.index) else 0
  {
    hide Streamed, Counted, A.Suffix;
    Snoc(seen, c);
  }

  /** The streaming loop with its two dictionaries. */
  method StreamCompletion(outputs: seq<Output>, includeUsage: bool, engineFails: bool) returns (chunks: seq<Chunk>)
    ensures var seen := Flatten(outputs);
            chunks == Streamed(seen)
                    + (if engineFails then [ErrorChunk]
                       else (if includeUsage then [UsageChunk(PromptTokens(outputs), Counted(seen))] else [])
                            + [DoneChunk])
  {
    hide Counted, Streamed, Remembers, A.Suffix, Now, TextOf, CountOf, Flatten;
    chunks := [];
    var totalPrompt, totalCompletion := 0, 0;
    var prevTexts: map<nat, string>, prevCounts: map<nat, nat> := map[], map[];
    ghost var seen: seq<Choice> := [];
    Nothing();
    var i := 0;
    while i < |outputs|
      invariant 0 <= i <= |outputs|
      invariant seen + Flatten(outputs[i..]) == Flatten(outputs)
      invariant chunks == Streamed(seen) && totalCompletion == Counted(seen)
      invariant totalPrompt == PromptTokens(outputs[..i])
      invariant Remembers(prevTexts, prevCounts, seen)
    {
      totalPrompt := outputs[i].promptTokens;
      var choices := outputs[i].choices;
      FlattenFrom(outputs, i);
      ghost var before := seen;
      var j := 0;
      while j < |choices|
        invariant 0 <= j <= |choices|
        invariant seen == before + choices[..j]
        invariant chunks == Streamed(seen) && totalCompletion == Counted(seen)
        invariant Remembers(prevTexts, prevCounts, seen)
      {
        var c := choices[j];
        OneChoice(prevTexts, prevCounts, seen, c);
        var delta := A.Suffix(c.text, TextOf(prevTexts, c.index));
        prevTexts := prevTexts[c.index := c.text];
        var previous := CountOf(prevCounts, c.index);
        totalCompletion := totalCompletion + if c.tokens > previous then c.tokens - previous else 0;
        prevCounts := prevCounts[c.index := c.tokens];
        chunks := chunks + Now(c, delta);
        seen := seen + [c];
        j := j + 1;
      }
      assert seen == before + choices;
      i := i + 1;
    }
    FlattenNone();
    assert outputs[i..] == [] && outputs[..i] == outputs;
    assert seen + [] == seen;
    if engineFails {
      chunks := chunks + [ErrorChunk];
    } else {
      if includeUsage { chunks := chunks + [UsageChunk(totalPrompt, totalCompletion)]; }
      chunks := chunks + [DoneChunk];
    }
  }

  lemma FlattenFrom(outputs: seq<Output>, i: nat)
    requires i < |outputs|
    ensures Flatten(outputs[i..]) == outputs[i].choices + Flatten(outputs[i + 1..])
  {
    assert outputs[i..][1..] == outputs[i + 1..];
  }

  lemma FlattenNone()
    ensures Flatten([]) == []
  {
  }

  lemma Nothing()
    ensures Streamed([]) == [] && Counted([]) == 0 && Remembers(map[], map[], [])
  {
  }

  // ---- The non-streaming response ---------------------------------------------------------------

  datatype ResponseChoice = ResponseChoice(index: nat, text: string, finish: Option<string>)

  datatype Response = Response(choices: seq<ResponseChoice>, promptTokens: nat, completionTokens: nat)

  // One prompt: the text it echoes and what the engine yields for it
  datatype PromptRun = PromptRun(promptText: string, outputs: seq<Output>)

  function TokenSum(choices: seq<Choice>): nat {
    if choices == [] then 0 else TokenSum(choices[..|choices| - 1]) + choices[|choices| - 1].tokens
  }

  function LastOutput(run: PromptRun): Option<Output> {
    if run.outputs == [] then None else Some(run.outputs[|run.outputs| - 1])
  }

  // How best_of picks and orders the returned choices, where it asks for more than n; the ranking by
  // log probability is a parameter.
  type BestOf = Option<seq<Choice> -> seq<Choice>>

  function Returned(choices: seq<Choice>, bestOf: BestOf): seq<Choice> {
    if bestOf.Some? then bestOf.value(choices) else choices
  }

  /** With best_of every generated token is counted, unless there is none. */
  function Charged(choices: seq<Choice>, bestOf: BestOf): nat {
    if bestOf.Some? && TokenSum(choices) != 0 then TokenSum(choices) else TokenSum(Returned(choices, bestOf))
  }

  /** The choices of all prompts, each with its position as index. */
  function Choices(runs: seq<PromptRun>, echo: bool, bestOf: BestOf): seq<Choice>
    requires forall i | 0 <= i < |runs| :: runs[i].outputs != []
  {
    if runs == [] then []
    else
      var last := runs[|runs| - 1];
      Choices(runs[..|runs| - 1], echo, bestOf)
      + Echoed(Returned(LastOutput(last).value.choices, bestOf), if echo then last.promptText else [])
  }

  function Echoed(choices: seq<Choice>, prompt: string): (r: seq<Choice>)
    ensures |r| == |choices|
  {
    seq(|choices|, (i: nat) requires i < |choices| => choices[i].(text := prompt + choices[i].text))
  }

  lemma {:induction false} EchoedTokens(choices: seq<Choice>, prompt: string)
    ensures TokenSum(Echoed(choices, prompt)) == TokenSum(choices)
  {
    if choices != [] {
      var n := |choices| - 1;
      assert Echoed(choices, prompt)[..n] == Echoed(choices[..n], prompt);
      EchoedTokens(choices[..n], prompt);
    }
  }

  function PromptSum(runs: seq<PromptRun>): nat
    requires forall i | 0 <= i < |runs| :: runs[i].outputs != []
  {
    if runs == [] then 0 else PromptSum(runs[..|runs| - 1]) + LastOutput(runs[|runs| - 1]).value.promptTokens
  }

  function ChargedSum(runs: seq<PromptRun>, bestOf: BestOf): nat
    requires forall i | 0 <= i < |runs| :: runs[i].outputs != []
  {
    if runs == [] then 0
    else ChargedSum(runs[..|runs| - 1], bestOf) + Charged(LastOutput(runs[|runs| - 1]).value.choices, bestOf)
  }

  /** The loop over prompts; None stands for "Engine returned no output". */
  method ExecuteNonStreamingCompletion(runs: seq<PromptRun>, echo: bool, bestOf: BestOf)
    returns (response: Option<Response>)
    ensures response.None? <==> exists i :: 0 <= i < |runs| && runs[i].outputs == []
    ensures response.Some? ==>
              && Numbered(response.value.choices, Choices(runs, echo, bestOf))
              && response.value.promptTokens == PromptSum(runs)
              && response.value.completionTokens == ChargedSum(runs, bestOf)
  {
    hide Numbered, TokenSum, Echoed, Returned, Charged;
    var choices: seq<ResponseChoice> := [];
    var totalPrompt, totalCompletion := 0, 0;
    NoChoices();
    var p := 0;
    while p < |runs|
      invariant 0 <= p <= |runs|
      invariant forall i | 0 <= i < p :: runs[i].outputs != []
      invariant Numbered(choices, Choices(runs[..p], echo, bestOf))
      invariant totalPrompt == PromptSum(runs[..p]) && totalCompletion == ChargedSum(runs[..p], bestOf)
    {
      var output := LastOutput(runs[p]);
      if output.None? { return None; }
      ghost var before := Choices(runs[..p], echo, bestOf);
      assert runs[..p + 1][..p] == runs[..p];
      var returned := Returned(output.value.choices, bestOf);
      var sub := Echoed(returned, if echo then runs[p].promptText else []);
      assert Choices(runs[..p + 1], echo, bestOf) == before + sub;
      var subTotal;
      choices, subTotal := AppendChoices(choices, sub, before);
      EchoedTokens(returned, if echo then runs[p].promptText else []);
      var override := if bestOf.Some? then TokenSum(output.value.choices) else 0;
      ChargedIs(output.value.choices, bestOf);
      totalPrompt := totalPrompt + output.value.promptTokens;
      totalCompletion := totalCompletion + if override != 0 then override else subTotal;
      p := p + 1;
    }
    assert runs[..p] == runs;
    response := Some(Response(choices, totalPrompt, totalCompletion));
  }

  lemma ChargedIs(choices: seq<Choice>, bestOf: BestOf)
    ensures Charged(choices, bestOf) ==
              if bestOf.Some? && TokenSum(choices) != 0 then TokenSum(choices) else TokenSum(Returned(choices, bestOf))
  {
  }

  lemma NoChoices()
    ensures Numbered([], []) && TokenSum([]) == 0
  {
  }

  /** The choices re-indexed by position. */
  predicate Numbered(choices: seq<ResponseChoice>, all: seq<Choice>) {
    |choices| == |all| && forall k | 0 <= k < |all| :: choices[k] == ResponseChoice(k, all[k].text, all[k].finish)
  }

  method AppendChoices(choices0: seq<ResponseChoice>, sub: seq<Choice>, ghost before: seq<Choice>)
    returns (choices: seq<ResponseChoice>, tokens: nat)
    requires Numbered(choices0, before)
    ensures Numbered(choices, before + sub) && tokens == TokenSum(sub)
  {
    choices, tokens := choices0, 0;
    var offset := |choices0|;
    var j := 0;
    while j < |sub|
      invariant 0 <= j <= |sub|
      invariant Numbered(choices, before + sub[..j]) && tokens == TokenSum(sub[..j])
    {
      assert sub[..j + 1][..j] == sub[..j];
      choices := choices + [ResponseChoice(offset + j, sub[j].text, sub[j].finish)];
      tokens := tokens + sub[j].tokens;
      j := j + 1;
    }
    assert sub[..j] == sub;
  }

  // ---- Streaming agrees with the response -------------------------------------------------------

  /** All text streamed for one choice. */
  function TextAt(chunks: seq<Chunk>, index: nat): string {
    if chunks == [] then [] else DeltaAt(chunks[0], index) + TextAt(chunks[1..], index)
  }

  function DeltaAt(chunk: Chunk, index: nat): string {
    if chunk.TextChunk? && chunk.index == index then chunk.delta else []
  }

  lemma {:induction false} TextAtConcat(a: seq<Chunk>, b: seq<Chunk>, index: nat)
    ensures TextAt(a + b, index) == TextAt(a, index) + TextAt(b, index)
  {
    if a == [] {
      assert a + b == b;
    } else {
      hide DeltaAt;
      assert (a + b)[0] == a[0] && (a + b)[1..] == a[1..] + b;
      TextAtConcat(a[1..], b, index);
    }
  }

  lemma TextAtNow(c: Choice, delta: string, index: nat)
    ensures TextAt(Now(c, delta), index) == if c.index == index then delta else []
  {
    var text: seq<Chunk> := if delta == [] then [] else [TextChunk(c.index, delta)];
    var finish: seq<Chunk> := if c.finish.None? then [] else [FinishChunk(c.index, c.finish.value)];
    TextAtConcat(text, finish, index);
    assert TextAt([], index) == [];
  }

  /** Texts grow and token counts do not fall, index by index. */
  ghost predicate Growing(seen: seq<Choice>) {
    seen == []
    || (var before, c := seen[..|seen| - 1], seen[|seen| - 1];
        Growing(before) && LastText(before, c.index) <= c.text && LastTokens(before, c.index) <= c.tokens)
  }

  lemma {:induction false} StreamedTextIsLast(seen: seq<Choice>, index: nat)
    requires Growing(seen)
    ensures TextAt(Streamed(seen), index) == LastText(seen, index)
  {
    hide Now;
    if seen != [] {
      var before, c := seen[..|seen| - 1], seen[|seen| - 1];
      StreamedTextIsLast(before, index);
      var delta := A.Suffix(c.text, LastText(before, c.index));
      TextAtConcat(Streamed(before), Now(c, delta), index);
      TextAtNow(c, delta, index);
    }
  }

  function SumLast(seen: seq<Choice>, n: nat): nat {
    if n == 0 then 0 else SumLast(seen, n - 1) + LastTokens(seen, n - 1)
  }

  lemma SnocTokens(seen: seq<Choice>, c: Choice, index: nat)
    ensures LastTokens(seen + [c], index) == if c.index == index then c.tokens else LastTokens(seen, index)
  {
    assert (seen + [c])[..|seen|] == seen;
  }

  lemma {:induction false} SumLastNext(seen: seq<Choice>, c: Choice, n: nat)
    ensures SumLast(seen + [c], n) == SumLast(seen, n) + if c.index < n then c.tokens - LastTokens(seen, c.index) else 0
  {
    hide LastTokens;
    if n > 0 {
      SnocTokens(seen, c, n - 1);
      SumLastNext(seen, c, n - 1);
    }
  }

  lemma {:induction false} SumLastNothing(n: nat)
    ensures SumLast([], n) == 0
  {
    if n > 0 { SumLastNothing(n - 1); }
  }

  lemma {:induction false} CountedIsSum(seen: seq<Choice>, n: nat)
    requires Growing(seen) && forall i | 0 <= i < |seen| :: seen[i].index < n
    ensures Counted(seen) == SumLast(seen, n)
  {
    if seen == [] {
      SumLastNothing(n);
    } else {
      var before, c := seen[..|seen| - 1], seen[|seen| - 1];
      CountedIsSum(before, n);
      assert before + [c] == seen;
      SumLastNext(before, c, n);
    }
  }

  /** Choices listed in index order decide the last text and count of those indices. */
  lemma {:induction false} LastInOrder(before: seq<Choice>, choices: seq<Choice>, index: nat)
    requires forall k | 0 <= k < |choices| :: choices[k].index == k
    ensures index < |choices| ==> LastText(before + choices, index) == choices[index].text
    ensures index < |choices| ==> LastTokens(before + choices, index) == choices[index].tokens
  {
    if choices != [] {
      var init, c := choices[..|choices| - 1], choices[|choices| - 1];
      assert before + choices == (before + init) + [c];
      Snoc(before + init, c);
      LastInOrder(before, init, index);
    }
  }

  lemma {:induction false} SumInOrder(before: seq<Choice>, choices: seq<Choice>, n: nat)
    requires n <= |choices| && forall k | 0 <= k < |choices| :: choices[k].index == k
    ensures SumLast(before + choices, n) == TokenSum(choices[..n])
  {
    hide LastTokens;
    if n > 0 {
      assert choices[..n][..n - 1] == choices[..n - 1];
      SumInOrder(before, choices, n - 1);
      LastInOrder(before, choices, n - 1);
    }
  }

  lemma {:induction false} FlattenConcat(a: seq<Output>, b: seq<Output>)
    ensures Flatten(a + b) == Flatten(a) + Flatten(b)
  {
    if a == [] {
      assert a + b == b;
    } else {
      assert (a + b)[1..] == a[1..] + b;
      FlattenConcat(a[1..], b);
    }
  }

  lemma FlattenLast(outputs: seq<Output>)
    requires outputs != []
    ensures Flatten(outputs) == Flatten(outputs[..|outputs| - 1]) + outputs[|outputs| - 1].choices
  {
    hide Flatten;
    var init, last := outputs[..|outputs| - 1], outputs[|outputs| - 1];
    FlattenConcat(init, [last]);
    FlattenOne(last);
    assert outputs == init + [last];
  }

  lemma FlattenOne(output: Output)
    ensures Flatten([output]) == output.choices
  {
    assert [output][1..] == [];
    assert output.choices + Flatten([]) == output.choices;
  }

  /** The last output lists every choice, in index order. */
  predicate EndsComplete(outputs: seq<Output>) {
    && outputs != []
    && var last := outputs[|outputs| - 1].choices;
       && (forall k | 0 <= k < |last| :: last[k].index == k)
       && forall i | 0 <= i < |Flatten(outputs)| :: Flatten(outputs)[i].index < |last|
  }

  lemma SingleResponse(prompt: string, outputs: seq<Output>)
    requires outputs != []
    ensures var run := [PromptRun(prompt, outputs)];
            && Choices(run, false, None) == outputs[|outputs| - 1].choices && PromptSum(run) == PromptTokens(outputs)
            && ChargedSum(run, None) == TokenSum(outputs[|outputs| - 1].choices)
  {
    var run := [PromptRun(prompt, outputs)];
    var last := outputs[|outputs| - 1].choices;
    assert run[..0] == [] && Choices([], false, None) == [] && PromptSum([]) == 0 && ChargedSum([], None) == 0;
    forall k | 0 <= k < |last| ensures Echoed(last, [])[k] == last[k] {
      assert [] + last[k].text == last[k].text;
    }
    assert Echoed(last, []) == last;
  }

  lemma StreamedText(outputs: seq<Output>, k: nat)
    requires Growing(Flatten(outputs)) && EndsComplete(outputs)
    ensures var last := outputs[|outputs| - 1].choices;
            TextAt(Streamed(Flatten(outputs)), k) == if k < |last| then last[k].text else []
  {
    hide Streamed, TextAt, Growing, Flatten;
    var last := outputs[|outputs| - 1].choices;
    FlattenLast(outputs);
    StreamedTextIsLast(Flatten(outputs), k);
    if k < |last| { LastInOrder(Flatten(outputs[..|outputs| - 1]), last, k); } else { LastUnseen(Flatten(outputs), k); }
  }

  /** Streaming a single prompt delivers, choice by choice, the texts and the usage of the
      non-streaming response. */
  lemma StreamingAgrees(prompt: string, outputs: seq<Output>)
    requires Growing(Flatten(outputs)) && EndsComplete(outputs)
    ensures var run := [PromptRun(prompt, outputs)];
            var seen, all := Flatten(outputs), Choices(run, false, None);
            && (forall k: nat :: TextAt(Streamed(seen), k) == if k < |all| then all[k].text else [])
            && Counted(seen) == ChargedSum(run, None) && PromptTokens(outputs) == PromptSum(run)
  {
    hide Streamed, TextAt, Growing, Flatten, Counted, SumLast, TokenSum;
    var seen, last := Flatten(outputs), outputs[|outputs| - 1].choices;
    SingleResponse(prompt, outputs);
    forall k: nat ensures TextAt(Streamed(seen), k) == if k < |last| then last[k].text else [] {
      StreamedText(outputs, k);
    }
    FlattenLast(outputs);
    CountedIsSum(seen, |last|);
    SumInOrder(Flatten(outputs[..|outputs| - 1]), last, |last|);
    assert last[..|last|] == last;
  }

  lemma {:induction false} LastUnseen(seen: seq<Choice>, index: nat)
    requires forall i | 0 <= i < |seen| :: seen[i].index != index
    ensures LastText(seen, index) == []
  {
    if seen != [] { LastUnseen(seen[..|seen| - 1], index); }
  }

  // ---- Finish reasons ---------------------------------------------------------------------------

  /** The finish reasons streamed for one choice. */
  function FinishesAt(chunks: seq<Chunk>, index: nat): seq<string> {
    if chunks == [] then [] else FinishAt(chunks[0], index) + FinishesAt(chunks[1..], index)
  }

  function FinishAt(chunk: Chunk, index: nat): seq<string> {
    if chunk.FinishChunk? && chunk.index == index then [chunk.reason] else []
  }

  /** The finish reasons the engine reported for it. */
  function Reasons(seen: seq<Choice>, index: nat): seq<string> {
    if seen == [] then []
    else
      var c := seen[|seen| - 1];
      Reasons(seen[..|seen| - 1], index) + if c.index == index && c.finish.Some? then [c.finish.value] else []
  }

  lemma {:induction false} FinishesConcat(a: seq<Chunk>, b: seq<Chunk>, index: nat)
    ensures FinishesAt(a + b, index) == FinishesAt(a, index) + FinishesAt(b, index)
  {
    if a == [] {
      assert a + b == b;
    } else {
      hide FinishAt;
      assert (a + b)[0] == a[0] && (a + b)[1..] == a[1..] + b;
      FinishesConcat(a[1..], b, index);
    }
  }

  lemma FinishesNow(c: Choice, delta: string, index: nat)
    ensures FinishesAt(Now(c, delta), index) == if c.index == index && c.finish.Some? then [c.finish.value] else []
  {
    var text: seq<Chunk> := if delta == [] then [] else [TextChunk(c.index, delta)];
    var finish: seq<Chunk> := if c.finish.None? then [] else [FinishChunk(c.index, c.finish.value)];
    FinishesConcat(text, finish, index);
    assert FinishesAt([], index) == [];
    assert forall chunk: Chunk :: [chunk][1..] == [];
  }

  /** Every reported finish reason is streamed once, in order, and nothing but text and finish chunks is;
      a choice that finishes has its finish chunk after its text. */
  lemma {:induction false} FinishesAreStreamed(seen: seq<Choice>, index: nat)
    ensures FinishesAt(Streamed(seen), index) == Reasons(seen, index)
    ensures forall chunk | chunk in Streamed(seen) :: chunk.FinishChunk? || (chunk.TextChunk? && chunk.delta != [])
    ensures seen != [] && seen[|seen| - 1].finish.Some? ==>
              var c, chunks := seen[|seen| - 1], Streamed(seen);
              chunks != [] && chunks[|chunks| - 1] == FinishChunk(c.index, c.finish.value)
  {
    if seen != [] {
      var before, c := seen[..|seen| - 1], seen[|seen| - 1];
      FinishesAreStreamed(before, index);
      var delta := A.Suffix(c.text, LastText(before, c.index));
      hide A.Suffix, LastText, FinishesAt;
      FinishesConcat(Streamed(before), Now(c, delta), index);
      FinishesNow(c, delta, index);
    }
  }

  // ---- The choices and the charge of many prompts -------------------------------------------------

  ghost predicate AllAnswered(runs: seq<PromptRun>) { forall i | 0 <= i < |runs| :: runs[i].outputs != [] }

  /** The choices that one prompt returns. */
  function ReturnedBy(run: PromptRun, bestOf: BestOf): seq<Choice>
    requires run.outputs != []
  {
    Returned(run.outputs[|run.outputs| - 1].choices, bestOf)
  }

  /** How many choices the prompts before position p return. */
  function Offset(runs: seq<PromptRun>, p: nat, bestOf: BestOf): nat
    requires AllAnswered(runs) && p <= |runs|
  {
    if p == 0 then 0 else Offset(runs, p - 1, bestOf) + |ReturnedBy(runs[p - 1], bestOf)|
  }

  lemma {:induction false} OffsetInPrefix(runs: seq<PromptRun>, n: nat, p: nat, bestOf: BestOf)
    requires AllAnswered(runs) && p <= n <= |runs|
    ensures Offset(runs[..n], p, bestOf) == Offset(runs, p, bestOf)
  {
    hide Returned;
    if p > 0 { OffsetInPrefix(runs, n, p - 1, bestOf); }
  }

  /** The k-th returned choice of prompt p stands behind those of the earlier prompts, with the text of the
      prompt in front of its own when that is asked for. */
  lemma {:induction false} ChoiceAt(runs: seq<PromptRun>, echo: bool, bestOf: BestOf, p: nat, k: nat)
    requires AllAnswered(runs) && p < |runs| && k < |ReturnedBy(runs[p], bestOf)|
    ensures var all, c, at := Choices(runs, echo, bestOf), ReturnedBy(runs[p], bestOf)[k], Offset(runs, p, bestOf) + k;
            && |all| == Offset(runs, |runs|, bestOf) && at < |all|
            && all[at].finish == c.finish && all[at].text == if echo then runs[p].promptText + c.text else c.text
    decreases |runs|
  {
    hide ReturnedBy, Choices, Offset, Echoed;
    var n, c := |runs| - 1, ReturnedBy(runs[p], bestOf)[k];
    var prompt := if echo then runs[n].promptText else [];
    ChoicesLength(runs, echo, bestOf);
    ChoicesLength(runs[..n], echo, bestOf);
    OffsetInPrefix(runs, n, p, bestOf);
    OffsetInPrefix(runs, n, n, bestOf);
    LastChoices(runs, echo, bestOf);
    if p < n {
      ChoiceAt(runs[..n], echo, bestOf, p, k);
    } else {
      EchoedAt(ReturnedBy(runs[n], bestOf), prompt, k);
      assert [] + c.text == c.text;
    }
  }

  lemma LastChoices(runs: seq<PromptRun>, echo: bool, bestOf: BestOf)
    requires AllAnswered(runs) && runs != []
    ensures var n := |runs| - 1;
            Choices(runs, echo, bestOf) ==
              Choices(runs[..n], echo, bestOf)
              + Echoed(ReturnedBy(runs[n], bestOf), if echo then runs[n].promptText else [])
  {
    hide Returned, Echoed;
  }

  lemma EchoedAt(choices: seq<Choice>, prompt: string, k: nat)
    requires k < |choices|
    ensures Echoed(choices, prompt)[k] == choices[k].(text := prompt + choices[k].text)
  {
  }

  lemma {:induction false} ChoicesLength(runs: seq<PromptRun>, echo: bool, bestOf: BestOf)
    requires AllAnswered(runs)
    ensures |Choices(runs, echo, bestOf)| == Offset(runs, |runs|, bestOf)
    decreases |runs|
  {
    hide Returned;
    if runs != [] {
      var n := |runs| - 1;
      ChoicesLength(runs[..n], echo, bestOf);
      OffsetInPrefix(runs, n, n, bestOf);
    }
  }

  /** Everything the engine generated for all prompts. */
  function Generated(runs: seq<PromptRun>): seq<Choice>
    requires AllAnswered(runs)
  {
    if runs == [] then [] else Generated(runs[..|runs| - 1]) + ReturnedBy(runs[|runs| - 1], None)
  }

  lemma {:induction false} TokenSumConcat(a: seq<Choice>, b: seq<Choice>)
    ensures TokenSum(a + b) == TokenSum(a) + TokenSum(b)
  {
    if b == [] {
      assert a + b == a;
    } else {
      var n := |b| - 1;
      assert (a + b)[..|a| + n] == a + b[..n];
      TokenSumConcat(a, b[..n]);
    }
  }

  /** Without best_of the charge is the tokens of the returned choices, which are all that was generated;
      with it, all generated tokens of every prompt are charged although fewer choices are returned. */
  lemma {:induction false} ChargeIsAllTokens(runs: seq<PromptRun>, echo: bool, bestOf: BestOf)
    requires AllAnswered(runs)
    requires forall i | 0 <= i < |runs| :: TokenSum(ReturnedBy(runs[i], None)) > 0
    ensures ChargedSum(runs, bestOf) == TokenSum(Generated(runs))
    ensures bestOf == None ==> TokenSum(Choices(runs, echo, None)) == TokenSum(Generated(runs))
    decreases |runs|
  {
    if runs != [] {
      var n := |runs| - 1;
      var last := ReturnedBy(runs[n], None);
      ChargeIsAllTokens(runs[..n], echo, bestOf);
      TokenSumConcat(Generated(runs[..n]), last);
      EchoedTokens(last, if echo then runs[n].promptText else []);
      TokenSumConcat(Choices(runs[..n], echo, None), Echoed(last, if echo then runs[n].promptText else []));
      assert TokenSum(last) > 0;
      hide TokenSum, Echoed;
    }
  }

  // ---- Suffix-aware streams ---------------------------------------------------------------------

  function Shown(infill: I.Infill, suffix: string, c: Choice, finished: bool): Choice {
    c.(text := I.Visible(infill, c.text, suffix, c.finish.Some? || finished))
  }

  function ShownChoices(infill: I.Infill, suffix: string, o: Output): seq<Choice> {
    seq(|o.choices|, (k: nat) requires k < |o.choices| => Shown(infill, suffix, o.choices[k], o.finished))
  }

  function Transformed(infill: I.Infill, suffix: string, outputs: seq<Output>): seq<Output> {
    if outputs == [] then []
    else
      var o := outputs[|outputs| - 1];
      Transformed(infill, suffix, outputs[..|outputs| - 1]) + [o.(choices := ShownChoices(infill, suffix, o))]
  }

  /** Without infill or without a suffix the stream passes unchanged. */
  method TransformCompletionOutputStream(infill: Option<I.Infill>, suffix: Option<string>, outputs: seq<Output>)
    returns (r: seq<Output>)
    ensures r == if infill.None? || suffix.None? then outputs else Transformed(infill.value, suffix.value, outputs)
  {
    r := [];
    var i := 0;
    if infill.None? || suffix.None? {
      while i < |outputs|
        invariant 0 <= i <= |outputs| && r == outputs[..i]
      {
        r := r + [outputs[i]];
        i := i + 1;
      }
      return;
    }
    while i < |outputs|
      invariant 0 <= i <= |outputs| && r == Transformed(infill.value, suffix.value, outputs[..i])
    {
      var o := outputs[i];
      var choices: seq<Choice> := [];
      var j := 0;
      while j < |o.choices|
        invariant 0 <= j <= |o.choices| && |choices| == j
        invariant forall k | 0 <= k < j :: choices[k] == Shown(infill.value, suffix.value, o.choices[k], o.finished)
      {
        var c := o.choices[j];
        var text := I.ExtractVisibleText(infill.value, c.text, suffix.value, c.finish.Some? || o.finished);
        choices := choices + [c.(text := text)];
        j := j + 1;
      }
      assert choices == ShownChoices(infill.value, suffix.value, o);
      assert outputs[..i + 1][..i] == outputs[..i];
      r := r + [o.(choices := choices)];
      i := i + 1;
    }
    assert outputs[..i] == outputs;
  }

  // A choice of the engine together with whether it counts as finished
  datatype Raw = Raw(choice: Choice, finished: bool)

  function RawsOf(o: Output): seq<Raw> {
    seq(|o.choices|, (k: nat) requires k < |o.choices| => Raw(o.choices[k], o.choices[k].finish.Some? || o.finished))
  }

  function Raws(outputs: seq<Output>): seq<Raw> {
    if outputs == [] then [] else Raws(outputs[..|outputs| - 1]) + RawsOf(outputs[|outputs| - 1])
  }

  function ShownText(infill: I.Infill, suffix: string, r: Raw): string {
    I.Visible(infill, r.choice.text, suffix, r.finished)
  }

  function ShownAll(infill: I.Infill, suffix: string, raws: seq<Raw>): seq<Choice> {
    seq(|raws|, (k: nat) requires k < |raws| => raws[k].choice.(text := ShownText(infill, suffix, raws[k])))
  }

  lemma {:induction false} TransformedIsShown(infill: I.Infill, suffix: string, outputs: seq<Output>)
    ensures Flatten(Transformed(infill, suffix, outputs)) == ShownAll(infill, suffix, Raws(outputs))
  {
    if outputs != [] {
      var init, o := outputs[..|outputs| - 1], outputs[|outputs| - 1];
      TransformedIsShown(infill, suffix, init);
      var shown := Transformed(infill, suffix, outputs);
      assert shown[..|shown| - 1] == Transformed(infill, suffix, init);
      FlattenLast(shown);
      assert shown[|shown| - 1].choices == ShownAll(infill, suffix, RawsOf(o));
      assert ShownAll(infill, suffix, Raws(init) + RawsOf(o))
          == ShownAll(infill, suffix, Raws(init)) + ShownAll(infill, suffix, RawsOf(o));
    }
  }

  function LastRaw(raws: seq<Raw>, index: nat): Option<Raw> {
    if raws == [] then None
    else if raws[|raws| - 1].choice.index == index then Some(raws[|raws| - 1])
    else LastRaw(raws[..|raws| - 1], index)
  }

  lemma {:induction false} ShownLast(infill: I.Infill, suffix: string, raws: seq<Raw>, index: nat)
    ensures LastText(ShownAll(infill, suffix, raws), index) ==
              match LastRaw(raws, index) case None => [] case Some(a) => ShownText(infill, suffix, a)
  {
    hide ShownText;
    if raws != [] {
      assert ShownAll(infill, suffix, raws)[..|raws| - 1] == ShownAll(infill, suffix, raws[..|raws| - 1]);
      ShownLast(infill, suffix, raws[..|raws| - 1], index);
    }
  }

  // ---- When streaming is exact ------------------------------------------------------------------

  /** The streamed text is never shorter than the last one, and stays longer once it is longer. */
  lemma StreamedStep(seen: seq<Choice>, c: Choice, index: nat)
    ensures TextAt(Streamed(seen + [c]), index) ==
              TextAt(Streamed(seen), index) + if c.index == index then A.Suffix(c.text, LastText(seen, index)) else []
  {
    hide Streamed, TextAt, Now, LastText;
    Snoc(seen, c);
    var delta := A.Suffix(c.text, LastText(seen, c.index));
    TextAtConcat(Streamed(seen), Now(c, delta), index);
    TextAtNow(c, delta, index);
  }

  lemma {:induction false} StreamedIsLonger(seen: seq<Choice>, index: nat)
    ensures |TextAt(Streamed(seen), index)| >= |LastText(seen, index)|
  {
    hide Streamed, TextAt;
    if seen == [] {
      StreamsNothing(index);
    } else {
      var before, c := seen[..|seen| - 1], seen[|seen| - 1];
      assert seen == before + [c];
      StreamedIsLonger(before, index);
      StreamedStep(before, c, index);
    }
  }

  lemma StreamsNothing(index: nat)
    ensures TextAt(Streamed([]), index) == []
  {
  }

  /** Every text of the choice goes on from the one before, and what it adds is what the final text has
      there. */
  ghost predicate Fits(seen: seq<Choice>, index: nat, final: string) {
    seen == []
    || (var before, c := seen[..|seen| - 1], seen[|seen| - 1];
        && Fits(before, index, final)
        && (c.index == index ==>
              var from := |LastText(before, index)|;
              from <= |c.text| <= |final| && c.text[from..] == final[from..|c.text|]))
  }

  lemma {:induction false} FittingStreams(seen: seq<Choice>, index: nat, final: string)
    requires Fits(seen, index, final)
    ensures |LastText(seen, index)| <= |final| && TextAt(Streamed(seen), index) == final[..|LastText(seen, index)|]
  {
    hide Streamed, TextAt;
    if seen == [] {
      StreamsNothing(index);
    } else {
      var before, c := seen[..|seen| - 1], seen[|seen| - 1];
      assert seen == before + [c];
      FittingStreams(before, index, final);
      StreamedStep(before, c, index);
    }
  }

  lemma {:induction false} StreamingFits(seen: seq<Choice>, index: nat, final: string)
    requires TextAt(Streamed(seen), index) <= final && |TextAt(Streamed(seen), index)| == |LastText(seen, index)|
    ensures Fits(seen, index, final)
  {
    hide Streamed, TextAt;
    if seen != [] {
      var before, c := seen[..|seen| - 1], seen[|seen| - 1];
      assert seen == before + [c];
      StreamedIsLonger(before, index);
      StreamedStep(before, c, index);
      var streamed := TextAt(Streamed(before), index);
      StreamingFits(before, index, final);
      if c.index == index {
        assert TextAt(Streamed(seen), index) == final[..|c.text|];
        assert c.text[|streamed|..] == TextAt(Streamed(seen), index)[|streamed|..];
      }
    }
  }

  /** Whatever the texts are, the streamed text of a choice is its last text if and only if every text
      went on from the one before with what the last text has there. */
  lemma StreamIsExactIff(seen: seq<Choice>, index: nat)
    ensures TextAt(Streamed(seen), index) == LastText(seen, index) <==> Fits(seen, index, LastText(seen, index))
  {
    hide Streamed, TextAt;
    var final := LastText(seen, index);
    if Fits(seen, index, final) { FittingStreams(seen, index, final); }
    if TextAt(Streamed(seen), index) == final { StreamingFits(seen, index, final); }
  }

  // ---- When suffix-aware streaming is exact -----------------------------------------------------

  /** The raw texts of the choice grow, and no text counts as finished before its open tag while others
      follow. */
  ghost predicate GrowingAt(infill: I.Infill, raws: seq<Raw>, index: nat) {
    raws == []
    || (var before, r := raws[..|raws| - 1], raws[|raws| - 1];
        && GrowingAt(infill, before, index)
        && (r.choice.index == index ==> match LastRaw(before, index)
              case None => true
              case Some(a) => a.choice.text <= r.choice.text && (I.Opened(infill, a.choice.text).Some? || !a.finished)))
  }

  /** No part of the close tag is shown and taken back between two texts of the choice. */
  ghost predicate SteadyAt(infill: I.Infill, suffix: string, raws: seq<Raw>, index: nat)
    requires GrowingAt(infill, raws, index)
  {
    raws == []
    || (var before, r := raws[..|raws| - 1], raws[|raws| - 1];
        && SteadyAt(infill, suffix, before, index)
        && (r.choice.index == index ==> match LastRaw(before, index)
              case None => true
              case Some(a) =>
                I.Opened(infill, a.choice.text).Some? ==> I.Steady(infill, a.choice.text, r.choice.text, suffix)))
  }

  /** The next text shows everything that was shown, or less than was shown. */
  lemma ShowsMoreOrLess(infill: I.Infill, suffix: string, a: Raw, b: Raw)
    requires a.choice.text <= b.choice.text && (I.Opened(infill, a.choice.text).Some? || !a.finished)
    ensures var old_, new_ := ShownText(infill, suffix, a), ShownText(infill, suffix, b);
            if I.Opened(infill, a.choice.text).Some? && !I.Steady(infill, a.choice.text, b.choice.text, suffix)
            then |new_| < |old_| else old_ <= new_
  {
    var raw, longer := a.choice.text, b.choice.text;
    if I.Opened(infill, raw).Some? {
      I.OpenedGrows(infill, raw, longer);
      I.OpenedShowsBody(infill, raw, suffix, a.finished);
      I.OpenedShowsBody(infill, longer, suffix, b.finished);
      I.OpenedVisibleGrowsIffSteady(infill, raw, longer, suffix, a.finished, b.finished);
      PrefixesCompare(ShownText(infill, suffix, a), ShownText(infill, suffix, b), I.Opened(infill, longer).value);
    } else {
      I.UnopenedShowsNothing(infill, raw, suffix);
    }
  }

  lemma PrefixesCompare(a: string, b: string, whole: string)
    requires a <= whole && b <= whole
    ensures a <= b || |b| < |a|
  {
  }

  lemma {:induction false} SteadyStreams(infill: I.Infill, suffix: string, raws: seq<Raw>, index: nat)
    requires GrowingAt(infill, raws, index)
    ensures var seen := ShownAll(infill, suffix, raws);
            if SteadyAt(infill, suffix, raws, index) then TextAt(Streamed(seen), index) == LastText(seen, index)
            else |TextAt(Streamed(seen), index)| > |LastText(seen, index)|
  {
    hide Streamed, TextAt, ShownText;
    var seen := ShownAll(infill, suffix, raws);
    if raws == [] {
      StreamsNothing(index);
    } else {
      var before, r := raws[..|raws| - 1], raws[|raws| - 1];
      var shown := r.choice.(text := ShownText(infill, suffix, r));
      assert seen == ShownAll(infill, suffix, before) + [shown];
      assert seen[..|seen| - 1] == ShownAll(infill, suffix, before);
      SteadyStreams(infill, suffix, before, index);
      StreamedStep(ShownAll(infill, suffix, before), shown, index);
      ShownLast(infill, suffix, before, index);
      var last := LastRaw(before, index);
      if r.choice.index == index && last.Some? { ShowsMoreOrLess(infill, suffix, last.value, r); }
    }
  }

  /** For growing raw texts, the streamed text of a choice is the visible text of its last raw text if
      and only if no part of the close tag was shown and taken back. */
  lemma InfillStreamIsExactIff(infill: I.Infill, suffix: string, outputs: seq<Output>, index: nat)
    requires GrowingAt(infill, Raws(outputs), index)
    ensures TextAt(Streamed(Flatten(Transformed(infill, suffix, outputs))), index) ==
              (match LastRaw(Raws(outputs), index) case None => [] case Some(a) => ShownText(infill, suffix, a))
       <==> SteadyAt(infill, suffix, Raws(outputs), index)
  {
    hide Streamed, TextAt, ShownText, SteadyAt;
    TransformedIsShown(infill, suffix, outputs);
    ShownLast(infill, suffix, Raws(outputs), index);
    SteadyStreams(infill, suffix, Raws(outputs), index);
  }

  /** For native infill growing raw texts are enough. */
  lemma {:induction false} NativeIsSteady(suffix: string, raws: seq<Raw>, index: nat)
    requires Growing(ShownRaw(raws))
    ensures GrowingAt(I.Native, raws, index) && SteadyAt(I.Native, suffix, raws, index)
    ensures LastText(ShownRaw(raws), index) == match LastRaw(raws, index) case None => [] case Some(a) => a.choice.text
  {
    if raws != [] {
      var before := raws[..|raws| - 1];
      assert ShownRaw(raws)[..|raws| - 1] == ShownRaw(before);
      NativeIsSteady(suffix, before, index);
    }
  }

  function ShownRaw(raws: seq<Raw>): seq<Choice> { seq(|raws|, (k: nat) requires k < |raws| => raws[k].choice) }

  lemma {:induction false} RawsAreFlat(outputs: seq<Output>)
    ensures ShownRaw(Raws(outputs)) == Flatten(outputs)
  {
    if outputs != [] {
      var init, o := outputs[..|outputs| - 1], outputs[|outputs| - 1];
      RawsAreFlat(init);
      FlattenLast(outputs);
      assert ShownRaw(RawsOf(o)) == o.choices;
      assert ShownRaw(Raws(init) + RawsOf(o)) == ShownRaw(Raws(init)) + ShownRaw(RawsOf(o));
    }
  }

  /** Native infill: with growing raw texts, the streamed text of every choice is its last raw text
      without the longest tail that begins the suffix. */
  lemma NativeInfillStreams(suffix: string, outputs: seq<Output>, index: nat)
    requires Growing(Flatten(outputs))
    ensures TextAt(Streamed(Flatten(Transformed(I.Native, suffix, outputs))), index)
         == I.Trimmed(LastText(Flatten(outputs), index), suffix)
  {
    hide Streamed, TextAt, Growing, GrowingAt, SteadyAt, Flatten, Transformed;
    RawsAreFlat(outputs);
    NativeIsSteady(suffix, Raws(outputs), index);
    InfillStreamIsExactIff(I.Native, suffix, outputs, index);
    match LastRaw(Raws(outputs), index)
    case None => assert I.Trimmed([], suffix) == [];
    case Some(a) => I.NativeVisibleGrows(a.choice.text, a.choice.text, suffix, a.finished, a.finished);
  }
}
