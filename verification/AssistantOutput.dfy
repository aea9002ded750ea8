/** Deciding, while text streams in, whether an assistant turn is plain text or tool calls. */
module AssistantOutput {
  import opened KeyOrder

  // ---- Text classification ----------------------------------------------------------------------

  /** Python's str whitespace. */
  predicate IsSpace(c: char) {
    var n := c as int;
    || 0x09 <= n <= 0x0D || 0x1C <= n <= 0x20 || n == 0x85 || n == 0xA0 || n == 0x1680
    || 0x2000 <= n <= 0x200A || n == 0x2028 || n == 0x2029 || n == 0x202F || n == 0x205F || n == 0x3000
  }

  predicate Blank(s: string) { forall c | c in s :: IsSpace(c) }

  function Stripped(s: string): string {
    if s != [] && IsSpace(s[0]) then Stripped(s[1..]) else s
  }

  lemma {:induction false} StrippedEmpty(s: string)
    ensures Stripped(s) == [] <==> Blank(s)
  {
    if s != [] {
      assert s == [s[0]] + s[1..];
      if IsSpace(s[0]) { StrippedEmpty(s[1..]); }
    }
  }

  lemma {:induction false} StrippedConcat(s: string, t: string)
    ensures Stripped(s + t) == if Stripped(s) == [] then Stripped(t) else Stripped(s) + t
  {
    if s == [] {
      assert s + t == t;
    } else if IsSpace(s[0]) {
      assert (s + t)[1..] == s[1..] + t;
      StrippedConcat(s[1..], t);
    }
  }

  const TOOL_TAG := "<tool_call>"

  predicate LooksLikeToolCall(s: string) {
    var t := Stripped(s);
    "[" <= t || TOOL_TAG <= t
  }

  /** Some continuation of the text looks like a tool-call payload. */
  ghost predicate CouldBecomeToolCall(s: string) {
    exists t :: LooksLikeToolCall(s + t)
  }

  /** The prefix test answers "could still become a tool call" correctly except on blank text and
      on a proper prefix of the tag, which it wrongly rejects. */
  lemma PrefixTestIsExact(s: string)
    ensures LooksLikeToolCall(s) == CouldBecomeToolCall(s) <==> !(Stripped(s) < TOOL_TAG)
  {
    if Stripped(s) < TOOL_TAG {
      PartialTagMayComplete(s);
    } else if LooksLikeToolCall(s) {
      assert s + [] == s;
      assert LooksLikeToolCall(s + []);
    } else {
      forall t ensures !LooksLikeToolCall(s + t) { NeverCompletes(s, t); }
    }
  }

  lemma PartialTagMayComplete(s: string)
    requires Stripped(s) < TOOL_TAG
    ensures !LooksLikeToolCall(s) && CouldBecomeToolCall(s)
  {
    var u := Stripped(s);
    var t := if u == [] then TOOL_TAG else TOOL_TAG[|u|..];
    StrippedConcat(s, t);
    assert Stripped(TOOL_TAG) == TOOL_TAG;
    assert u + TOOL_TAG[|u|..] == TOOL_TAG;
    assert LooksLikeToolCall(s + t);
  }

  lemma NeverCompletes(s: string, t: string)
    requires !(Stripped(s) < TOOL_TAG) && !LooksLikeToolCall(s)
    ensures !LooksLikeToolCall(s + t)
  {
    var u := Stripped(s);
    StrippedConcat(s, t);
    assert forall i | 0 <= i < |u| :: (u + t)[i] == u[i];
  }

  // ---- Normalisation ----------------------------------------------------------------------------

  datatype ToolCall = ToolCall(id: string, name: string, arguments: string)

  // Parsing tool calls out of text is a parameter; no calls stands for None.
  type Parser = string -> seq<ToolCall>

  datatype Output = TextOutput(text: string) | CallsOutput(calls: seq<ToolCall>)

  function ParseIfPresent(parse: Parser, text: string): seq<ToolCall> {
    if LooksLikeToolCall(text) then parse(text) else []
  }

  function Normalized(parse: Parser, text: string, hasTools: bool): Output {
    if hasTools && ParseIfPresent(parse, text) != [] then CallsOutput(parse(text)) else TextOutput(text)
  }

  // ---- The streaming state ----------------------------------------------------------------------

  datatype Kind = Undecided | PlainText | ToolCalls

  datatype TextState = TextState(hasTools: bool, kind: Kind, text: string, streamed: string)

  function Initial(hasTools: bool): TextState { TextState(hasTools, Undecided, [], []) }

  function Suffix(new_: string, old_: string): string {
    if |old_| <= |new_| then new_[|old_|..] else []
  }

  function Decided(ts: TextState, text: string): Kind {
    if ts.kind == Undecided && !Blank(text) then
      if ts.hasTools && LooksLikeToolCall(text) then ToolCalls else PlainText
    else ts.kind
  }

  /** The delta to emit; the empty string stands for None. */
  function Delta(ts: TextState, text: string): string {
    if Decided(ts, text) == PlainText then Suffix(text, ts.text) else []
  }

  function Next(ts: TextState, text: string): TextState {
    TextState(ts.hasTools, Decided(ts, text), text, ts.streamed + Delta(ts, text))
  }

  function Deferred(parse: Parser, ts: TextState): string {
    match Normalized(parse, ts.text, ts.hasTools)
    case TextOutput(text) => if ts.streamed == [] then text else []
    case CallsOutput(_) => []
  }

  class AssistantOutputStreamState {
    const hasToolDefinitions: bool
    var kind: Kind
    var text: string
    var streamedText: string
    var finishReason: Option<string>

    ghost function State(): TextState
      reads this
    {
      TextState(hasToolDefinitions, kind, text, streamedText)
    }

    constructor (hasTools: bool)
      ensures State() == Initial(hasTools) && finishReason == None
    {
      hasToolDefinitions := hasTools;
      kind, text, streamedText, finishReason := Undecided, [], [], None;
    }

    method Update(newText: string, reason: Option<string>) returns (delta: Option<string>)
      modifies this
      ensures State() == Next(old(State()), newText)
      ensures delta == if Delta(old(State()), newText) == [] then None else Some(Delta(old(State()), newText))
      ensures finishReason == if reason.Some? then reason else old(finishReason)
    {
      var previousText := text;
      var deltaText := Suffix(newText, previousText);
      text := newText;
      if kind == Undecided && !Blank(newText) {
        if hasToolDefinitions && LooksLikeToolCall(newText) {
          kind := ToolCalls;
        } else {
          kind := PlainText;
        }
      }
      if reason.Some? {
        finishReason := reason;
      }
      if deltaText != [] && kind == PlainText {
        streamedText := streamedText + deltaText;
        return Some(deltaText);
      }
      delta := None;
    }

    method Finalize(parse: Parser) returns (normalized: Output, deferred: Option<string>)
      ensures normalized == Normalized(parse, text, hasToolDefinitions)
      ensures deferred == if Deferred(parse, State()) == [] then None else Some(Deferred(parse, State()))
    {
      normalized := Normalized(parse, text, hasToolDefinitions);
      deferred := None;
      if normalized.TextOutput? && normalized.text != [] && streamedText == [] {
        deferred := Some(normalized.text);
      }
    }
  }

  // ---- Runs of growing texts --------------------------------------------------------------------

  ghost predicate Grows(previous: string, texts: seq<string>)
    decreases texts
  {
    texts == [] || (previous <= texts[0] && Grows(texts[0], texts[1..]))
  }

  function After(ts: TextState, texts: seq<string>): TextState
    decreases texts
  {
    if texts == [] then ts else After(Next(ts, texts[0]), texts[1..])
  }

  /** What was received before the first streamed character. */
  function Dropped(ts: TextState): string {
    if |ts.streamed| <= |ts.text| then ts.text[..|ts.text| - |ts.streamed|] else []
  }

  /** Undecided text is blank; plain text is a blank part followed by exactly what was streamed. */
  ghost predicate Sound(ts: TextState) {
    match ts.kind
    case Undecided => Blank(ts.text) && ts.streamed == []
    case PlainText => ts.streamed != [] && Blank(Dropped(ts)) && ts.text == Dropped(ts) + ts.streamed
    case ToolCalls => ts.streamed == [] && ts.hasTools
  }

  lemma NextSound(ts: TextState, text: string)
    requires Sound(ts) && ts.text <= text
    ensures Sound(Next(ts, text))
  {
    hide LooksLikeToolCall;
    var ts' := Next(ts, text);
    var tail := text[|ts.text|..];
    assert text == ts.text + tail;
    if ts'.kind == PlainText {
      assert ts'.streamed == ts.streamed + tail;
      if ts.kind == Undecided {
        assert tail == [] ==> text == ts.text;
        assert Dropped(ts') == ts.text;
      } else {
        assert text == Dropped(ts) + (ts.streamed + tail);
        assert Dropped(ts') == Dropped(ts);
      }
    }
  }

  lemma {:induction false} AfterSound(ts: TextState, texts: seq<string>)
    requires Sound(ts) && Grows(ts.text, texts)
    ensures Sound(After(ts, texts)) && After(ts, texts).hasTools == ts.hasTools
    ensures ts.kind != Undecided ==> After(ts, texts).kind == ts.kind
    decreases texts
  {
    hide Sound;
    if texts != [] {
      NextSound(ts, texts[0]);
      AfterSound(Next(ts, texts[0]), texts[1..]);
    }
  }

  /** The kind is decided at most once, and when the turn ends as plain text nothing but leading
      white space is missing from what was streamed or deferred, never both. */
  lemma StreamedTextIsComplete(hasTools: bool, before: seq<string>, rest: seq<string>, parse: Parser)
    requires Grows([], before + rest)
    ensures var mid, end := After(Initial(hasTools), before), After(Initial(hasTools), before + rest);
            && (mid.kind != Undecided ==> end.kind == mid.kind)
            && (Normalized(parse, end.text, hasTools).TextOutput? ==>
                  var deferred := Deferred(parse, end);
                  && (end.streamed == [] || deferred == [])
                  && exists dropped :: Blank(dropped) && end.text == dropped + end.streamed + deferred)
  {
    hide LooksLikeToolCall, Next, Grows;
    var mid, end := After(Initial(hasTools), before), After(Initial(hasTools), before + rest);
    AfterConcat(Initial(hasTools), before, rest);
    GrowsConcat([], before, rest);
    AfterText(Initial(hasTools), before);
    AfterSound(Initial(hasTools), before);
    AfterSound(mid, rest);
    if Normalized(parse, end.text, hasTools).TextOutput? {
      var deferred := Deferred(parse, end);
      if end.kind == PlainText {
        assert end.text == Dropped(end) + end.streamed + deferred;
      } else {
        assert Blank([]) && end.text == [] + end.streamed + deferred;
      }
    }
  }

  lemma {:induction false} AfterConcat(ts: TextState, a: seq<string>, b: seq<string>)
    ensures After(ts, a + b) == After(After(ts, a), b)
    decreases a
  {
    if a == [] {
      assert a + b == b;
    } else {
      assert (a + b)[1..] == a[1..] + b;
      AfterConcat(Next(ts, a[0]), a[1..], b);
    }
  }

  function LastOf(previous: string, texts: seq<string>): string {
    if texts == [] then previous else texts[|texts| - 1]
  }

  lemma {:induction false} GrowsConcat(previous: string, a: seq<string>, b: seq<string>)
    requires Grows(previous, a + b)
    ensures Grows(previous, a) && Grows(LastOf(previous, a), b)
    decreases a
  {
    if a == [] {
      assert a + b == b;
    } else {
      assert (a + b)[1..] == a[1..] + b;
      GrowsConcat(a[0], a[1..], b);
    }
  }

  lemma {:induction false} AfterText(ts: TextState, texts: seq<string>)
    ensures After(ts, texts).text == LastOf(ts.text, texts)
    decreases texts
  {
    if texts != [] { AfterText(Next(ts, texts[0]), texts[1..]); }
  }

  // ---- When tool-call text is streamed ----------------------------------------------------------

  /** The first text that is not blank: the one the kind is decided on. */
  function FirstText(texts: seq<string>): Option<string> {
    if texts == [] then None else if !Blank(texts[0]) then Some(texts[0]) else FirstText(texts[1..])
  }

  lemma {:induction false} DecidedOnFirstText(ts: TextState, texts: seq<string>)
    requires Sound(ts) && ts.kind == Undecided && Grows(ts.text, texts)
    ensures After(ts, texts).kind == match FirstText(texts)
                                     case None => Undecided
                                     case Some(f) =>
                                       if ts.hasTools && LooksLikeToolCall(f) then ToolCalls else PlainText
    ensures FirstText(texts).None? ==> Blank(After(ts, texts).text)
    ensures FirstText(texts).Some? ==> FirstText(texts).value <= After(ts, texts).text
    decreases texts
  {
    hide LooksLikeToolCall;
    if texts != [] {
      var next := Next(ts, texts[0]);
      NextSound(ts, texts[0]);
      if Blank(texts[0]) {
        DecidedOnFirstText(next, texts[1..]);
      } else {
        AfterSound(next, texts[1..]);
        AfterText(next, texts[1..]);
        LastGrows(texts[0], texts[1..]);
      }
    }
  }

  lemma {:induction false} LastGrows(previous: string, texts: seq<string>)
    requires Grows(previous, texts)
    ensures previous <= LastOf(previous, texts)
    decreases texts
  {
    if texts != [] { LastGrows(texts[0], texts[1..]); }
  }

  /** Over every run that ends as tool calls, some of the tool-call text was streamed as plain text
      exactly when the first text that was not blank held only a proper part of the tag. */
  lemma ToolTextIsStreamedIff(texts: seq<string>, parse: Parser)
    requires Grows([], texts) && Normalized(parse, After(Initial(true), texts).text, true).CallsOutput?
    ensures After(Initial(true), texts).streamed != []
       <==> FirstText(texts).Some? && Stripped(FirstText(texts).value) < TOOL_TAG
  {
    var ts, end := Initial(true), After(Initial(true), texts);
    AfterSound(ts, texts);
    DecidedOnFirstText(ts, texts);
    assert LooksLikeToolCall(end.text);
    StrippedEmpty(end.text);
    if FirstText(texts).Some? {
      var f := FirstText(texts).value;
      var rest := end.text[|f|..];
      assert f + rest == end.text;
      if Stripped(f) < TOOL_TAG {
        PartialTagMayComplete(f);
      } else if !LooksLikeToolCall(f) {
        NeverCompletes(f, rest);
      }
    }
  }

  /** Deciding on a partial tag goes wrong: when the first piece is a proper prefix of the tag, all
      of the text is streamed as plain text and the turn still ends as tool calls. */
  lemma SplitTagIsStreamed(parse: Parser, n: nat, body: string)
    requires 0 < n < |TOOL_TAG| && parse(TOOL_TAG + body) != []
    ensures var end := After(Initial(true), [TOOL_TAG[..n], TOOL_TAG + body]);
            end.kind == PlainText && end.streamed == TOOL_TAG + body && Normalized(parse, end.text, true).CallsOutput?
  {
    TagTests(n, body);
    var first, whole := TOOL_TAG[..n], TOOL_TAG + body;
    EarlyDecisionIsFinal(first, whole);
  }

  lemma TagTests(n: nat, body: string)
    requires 0 < n < |TOOL_TAG|
    ensures !LooksLikeToolCall(TOOL_TAG[..n]) && LooksLikeToolCall(TOOL_TAG + body) && !Blank(TOOL_TAG[..n])
  {
    NotSpace(TOOL_TAG[..n]);
    NotSpace(TOOL_TAG + body);
  }

  lemma EarlyDecisionIsFinal(first: string, whole: string)
    requires first <= whole && !Blank(first) && !LooksLikeToolCall(first)
    ensures After(Initial(true), [first, whole]) == TextState(true, PlainText, whole, whole)
  {
    hide Blank, LooksLikeToolCall;
    var ts1 := Next(Initial(true), first);
    assert first[0..] == first;
    assert ts1 == TextState(true, PlainText, first, first);
    assert first + whole[|first|..] == whole;
    assert [first, whole][1..] == [whole];
    assert After(ts1, [whole]) == Next(ts1, whole);
  }

  lemma NotSpace(s: string)
    requires s != [] && s[0] == '<'
    ensures Stripped(s) == s && !Blank(s)
  {
    assert s[0] in s;
  }
}
