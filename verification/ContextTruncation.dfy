/** Dropping the oldest messages until the generation input fits the context. */
module ContextTruncation {
  // ---- Messages as values -----------------------------------------------------------------------

  // instructions marks the message that carries the request's own instructions
  datatype Turn = Turn(role: string, content: string, instructions: bool)

  const SYSTEM := "system"

  // Counting the tokens of model-facing messages is a parameter.
  type Counter = seq<Turn> -> nat

  function Stripped(turns: seq<Turn>): (r: seq<Turn>)
    ensures |r| == |turns|
  {
    seq(|turns|, (i: nat) requires i < |turns| => turns[i].(instructions := false))
  }

  /** The position of the first system message, or the length. */
  function FirstSystem(turns: seq<Turn>): (i: nat)
    ensures i <= |turns| && (i < |turns| ==> turns[i].role == SYSTEM)
    ensures forall j | 0 <= j < i :: turns[j].role != SYSTEM
  {
    if turns == [] then 0 else if turns[0].role == SYSTEM then 0 else 1 + FirstSystem(turns[1..])
  }

  /** The tools prompt goes to the end of the first system message, or into a new one in front. An
      empty prompt stands for no tools. */
  function Injected(turns: seq<Turn>, prompt: string): seq<Turn> {
    var i := FirstSystem(turns);
    if prompt == [] then turns
    else if i < |turns| then turns[i := turns[i].(content := turns[i].content + "\n\n" + prompt)]
    else [Turn(SYSTEM, prompt, false)] + turns
  }

  function Generation(turns: seq<Turn>, prompt: string): seq<Turn> { Injected(Stripped(turns), prompt) }

  /** Without tools nothing changes. With tools, the first system message keeps its content and gets the
      prompt behind it, and every other message stays as it is; where there is no system message, a new
      one with the prompt alone stands in front of all. */
  lemma InjectedIs(turns: seq<Turn>, prompt: string, i: nat)
    requires i < |turns|
    ensures var r := Injected(turns, prompt);
            && (prompt == [] ==> r == turns)
            && (prompt != [] && turns[i].role == SYSTEM && (forall j | 0 <= j < i :: turns[j].role != SYSTEM) ==>
                  && |r| == |turns| && turns[i].content <= r[i].content
                  && r[i] == Turn(SYSTEM, turns[i].content + "\n\n" + prompt, turns[i].instructions)
                  && forall j | 0 <= j < |turns| && j != i :: r[j] == turns[j])
            && (prompt != [] && (forall j | 0 <= j < |turns| :: turns[j].role != SYSTEM) ==>
                  |r| == |turns| + 1 && r[0] == Turn(SYSTEM, prompt, false) && r[1..] == turns)
  {
  }

  /** The generation input has every message in order, its role and content unchanged or, for the first
      system message, extended, and no instructions mark. */
  lemma GenerationIs(turns: seq<Turn>, prompt: string, i: nat)
    requires i < |turns|
    ensures var r := Generation(turns, prompt);
            && |turns| <= |r| <= |turns| + 1
            && var m := r[|r| - |turns| + i];
               && m.role == turns[i].role && !m.instructions && turns[i].content <= m.content
               && (m.content == turns[i].content || (m.role == SYSTEM && prompt != []))
  {
  }

  function Fits(turns: seq<Turn>, limit: int, prompt: string, count: Counter): bool {
    count(Generation(turns, prompt)) <= limit
  }

  function Select(turns: seq<Turn>, system: bool): seq<Turn> {
    if turns == [] then []
    else (if (turns[0].role == SYSTEM) == system then [turns[0]] else []) + Select(turns[1..], system)
  }

  /** The first position from k on whose suffix fits behind the system messages; the length + 1 when
      there is none. */
  function FirstFit(system: seq<Turn>, conversation: seq<Turn>, k: nat, limit: int, prompt: string,
                    count: Counter): (r: nat)
    requires k <= |conversation| + 1
    ensures k <= r <= |conversation| + 1
    ensures r <= |conversation| ==> Fits(system + conversation[r..], limit, prompt, count)
    ensures forall j | k <= j < r :: !Fits(system + conversation[j..], limit, prompt, count)
    decreases |conversation| + 1 - k
  {
    if k == |conversation| + 1 || Fits(system + conversation[k..], limit, prompt, count) then k
    else FirstFit(system, conversation, k + 1, limit, prompt, count)
  }

  /** Unchanged when it fits or nothing is limited; otherwise all system messages and the longest
      proper suffix of the others that fits, or the system messages alone. */
  function Truncated(turns: seq<Turn>, limit: int, prompt: string, count: Counter): seq<Turn> {
    var system, conversation := Select(turns, true), Select(turns, false);
    if limit <= 0 || Fits(turns, limit, prompt, count) then turns
    else
      var k := FirstFit(system, conversation, 1, limit, prompt, count);
      if k <= |conversation| then system + conversation[k..] else system
  }

  // ---- Messages as objects ----------------------------------------------------------------------

  class Message {
    const role: string
    var content: string
    var instructions: bool

    constructor (role: string, content: string, instructions: bool)
      ensures this.role == role && this.content == content && this.instructions == instructions
    {
      this.role, this.content, this.instructions := role, content, instructions;
    }

    function Value(): Turn
      reads this
    {
      Turn(role, content, instructions)
    }
  }

  ghost function Values(messages: seq<Message>): (r: seq<Turn>)
    reads messages
    ensures |r| == |messages| && forall i | 0 <= i < |r| :: r[i] == messages[i].Value()
  {
    seq(|messages|, i requires 0 <= i < |messages| reads messages => messages[i].Value())
  }

  ghost predicate Different(messages: seq<Message>) {
    forall i, j | 0 <= i < j < |messages| :: messages[i] != messages[j]
  }

  /** Edits the messages in place; the new message in front is a new object. */
  method InjectToolsPrompt(messages: seq<Message>, prompt: string) returns (r: seq<Message>)
    requires Different(messages)
    modifies messages
    ensures Values(r) == Injected(old(Values(messages)), prompt)
    ensures r == messages || (|r| == |messages| + 1 && r[1..] == messages && fresh(r[0]))
  {
    if prompt == [] { return messages; }
    ghost var before := Values(messages);
    var i := 0;
    while i < |messages| && messages[i].role != SYSTEM
      invariant 0 <= i <= |messages|
      invariant forall j | 0 <= j < i :: messages[j].role != SYSTEM
    {
      i := i + 1;
    }
    assert i == FirstSystem(before);
    if i < |messages| {
      AppendPrompt(messages, i, prompt);
      return messages;
    }
    var first := new Message(SYSTEM, prompt, false);
    r := [first] + messages;
  }

  method AppendPrompt(messages: seq<Message>, i: nat, prompt: string)
    requires Different(messages) && i < |messages|
    modifies messages[i]
    ensures var turn := old(messages[i].Value());
            Values(messages) == old(Values(messages))[i := turn.(content := turn.content + "\n\n" + prompt)]
  {
    messages[i].content := messages[i].content + "\n\n" + prompt;
  }

  method CopyMessages(messages: seq<Message>) returns (copies: seq<Message>)
    ensures Values(copies) == Stripped(Values(messages))
    ensures fresh(copies) && Different(copies)
  {
    copies := [];
    var i := 0;
    while i < |messages|
      invariant 0 <= i <= |messages| && |copies| == i
      invariant fresh(copies) && Different(copies)
      invariant forall j | 0 <= j < i :: copies[j].Value() == messages[j].Value().(instructions := false)
    {
      var copy := new Message(messages[i].role, messages[i].content, messages[i].instructions);
      copy.instructions := false;
      copies := copies + [copy];
      i := i + 1;
    }
  }

  /** Copies first, so the caller's messages stay as they are. */
  method BuildGenerationMessages(messages: seq<Message>, prompt: string) returns (r: seq<Message>)
    ensures Values(r) == Generation(Values(messages), prompt)
    ensures fresh(r)
  {
    var copies := CopyMessages(messages);
    r := InjectToolsPrompt(copies, prompt);
    assert forall m | m in r :: m in copies || m == r[0];
  }

  method Tokens(messages: seq<Message>, prompt: string, count: Counter) returns (n: nat)
    ensures n == count(Generation(Values(messages), prompt))
  {
    hide Injected;
    var input := BuildGenerationMessages(messages, prompt);
    var turns: seq<Turn> := [];
    var i := 0;
    while i < |input|
      invariant 0 <= i <= |input| && turns == Values(input)[..i]
    {
      turns := turns + [input[i].Value()];
      i := i + 1;
    }
    assert turns == Values(input);
    n := count(turns);
  }

  lemma SelectNext(turns: seq<Turn>, i: nat, system: bool)
    requires i < |turns|
    ensures Select(turns[..i + 1], system) ==
              Select(turns[..i], system) + (if (turns[i].role == SYSTEM) == system then [turns[i]] else [])
  {
    assert turns[..i + 1] == turns[..i] + [turns[i]];
    SelectConcat(turns[..i], [turns[i]], system);
    assert [turns[i]][1..] == [];
  }

  /** The messages of one kind, in order. */
  method Partition(messages: seq<Message>, system: bool) returns (r: seq<Message>)
    ensures Values(r) == Select(Values(messages), system)
    ensures forall m | m in r :: m in messages
  {
    hide Select;
    ghost var turns := Values(messages);
    r := [];
    NothingSelected(system);
    var i := 0;
    while i < |messages|
      invariant 0 <= i <= |messages|
      invariant Values(r) == Select(turns[..i], system)
      invariant forall m | m in r :: m in messages
    {
      SelectNext(turns, i, system);
      if (messages[i].role == SYSTEM) == system {
        assert Values(r + [messages[i]]) == Values(r) + [turns[i]];
        r := r + [messages[i]];
      }
      i := i + 1;
    }
    assert turns[..i] == turns;
  }

  lemma NothingSelected(system: bool)
    ensures Select([], system) == []
  {
  }

  /** Returns the caller's own message objects and changes none of them. */
  method TruncateMessagesForContext(messages: seq<Message>, limit: int, prompt: string, count: Counter)
    returns (r: seq<Message>)
    ensures Values(r) == Truncated(Values(messages), limit, prompt, count)
    ensures Values(messages) == old(Values(messages)) && forall m | m in r :: m in messages
    ensures limit <= 0 || Fits(Values(messages), limit, prompt, count) ==> r == messages
  {
    hide Generation, Select;
    if limit <= 0 { return messages; }
    var n := Tokens(messages, prompt, count);
    if n <= limit { return messages; }
    var system := Partition(messages, true);
    var conversation := Partition(messages, false);
    r := DropOldest(system, conversation, limit, prompt, count);
  }

  /** The loop that drops the oldest message until the rest fits. */
  method DropOldest(system: seq<Message>, conversation: seq<Message>, limit: int, prompt: string, count: Counter)
    returns (r: seq<Message>)
    ensures var k := FirstFit(Values(system), Values(conversation), 1, limit, prompt, count);
            Values(r) == if k <= |conversation| then Values(system) + Values(conversation)[k..] else Values(system)
    ensures forall m | m in r :: m in system || m in conversation
  {
    hide Generation, FirstFit, Select;
    var rest := conversation;
    ghost var behind, tail := Values(system), Values(conversation);
    ghost var k := 0;
    while rest != []
      invariant 0 <= k <= |conversation| && rest == conversation[k..]
      invariant Values(system) == behind && Values(conversation) == tail
      invariant FirstFit(behind, tail, 1, limit, prompt, count) == FirstFit(behind, tail, k + 1, limit, prompt, count)
    {
      rest := rest[1..];
      k := k + 1;
      FirstFitStep(behind, tail, k, limit, prompt, count);
      assert Values(rest) == tail[k..];
      var trial, n := Trial(system, rest, prompt, count);
      if n <= limit {
        return trial;
      }
    }
    FirstFitStep(behind, tail, |tail| + 1, limit, prompt, count);
    return system;
  }

  /** The tokens of the remaining messages behind the system messages. */
  method Trial(system: seq<Message>, rest: seq<Message>, prompt: string, count: Counter)
    returns (r: seq<Message>, n: nat)
    ensures Values(r) == Values(system) + Values(rest) && n == count(Generation(Values(r), prompt))
    ensures forall m | m in r :: m in system || m in rest
  {
    hide Generation;
    var trial := system + rest;
    r := if trial != [] then trial else system;
    n := Tokens(r, prompt, count);
  }

  lemma FirstFitStep(system: seq<Turn>, conversation: seq<Turn>, k: nat, limit: int, prompt: string, count: Counter)
    requires k <= |conversation| + 1
    ensures FirstFit(system, conversation, k, limit, prompt, count) ==
              if k == |conversation| + 1 || Fits(system + conversation[k..], limit, prompt, count) then k
              else FirstFit(system, conversation, k + 1, limit, prompt, count)
  {
  }

  // ---- What truncation keeps --------------------------------------------------------------------

  lemma {:induction false} SelectConcat(a: seq<Turn>, b: seq<Turn>, system: bool)
    ensures Select(a + b, system) == Select(a, system) + Select(b, system)
  {
    if a == [] {
      assert a + b == b;
    } else {
      var rest := a[1..];
      assert a + b == [a[0]] + (rest + b);
      SelectConcat(rest, b, system);
      assert Select(a + b, system) ==
             (if (a[0].role == SYSTEM) == system then [a[0]] else []) + Select(rest + b, system);
    }
  }

  lemma {:induction false} SelectOfSelected(turns: seq<Turn>, system: bool)
    ensures Select(Select(turns, system), system) == Select(turns, system)
    ensures Select(Select(turns, system), !system) == []
  {
    if turns != [] {
      SelectOfSelected(turns[1..], system);
      var head: seq<Turn> := if (turns[0].role == SYSTEM) == system then [turns[0]] else [];
      SelectConcat(head, Select(turns[1..], system), system);
      SelectConcat(head, Select(turns[1..], system), !system);
      assert head != [] ==> head[1..] == [];
    }
  }

  lemma SelectOfTail(conversation: seq<Turn>, k: nat)
    requires k <= |conversation| && Select(conversation, false) == conversation
    ensures Select(conversation[k..], false) == conversation[k..]
  {
    var tail := conversation[k..];
    assert conversation == conversation[..k] + tail;
    SelectConcat(conversation[..k], tail, false);
    SelectIsShorter(conversation[..k], false);
    SelectIsShorter(tail, false);
  }

  /** Every system message survives, in front of the others, which keep their order and lose only from the
      front; when anything at all is dropped the result fits or no conversation is left. */
  lemma TruncationKeepsSystemAndTail(turns: seq<Turn>, limit: int, prompt: string, count: Counter)
    ensures var r := Truncated(turns, limit, prompt, count);
            && Select(r, true) == Select(turns, true)
            && |Select(r, false)| <= |Select(turns, false)|
            && Select(r, false) == Select(turns, false)[|Select(turns, false)| - |Select(r, false)|..]
            && (r == turns || r == Select(r, true) + Select(r, false))
            && (limit > 0 ==> Fits(r, limit, prompt, count) || Select(r, false) == [])
  {
    hide Fits;
    var system, conversation := Select(turns, true), Select(turns, false);
    SelectOfSelected(turns, true);
    SelectOfSelected(turns, false);
    if limit > 0 && !Fits(turns, limit, prompt, count) {
      var k := FirstFit(system, conversation, 1, limit, prompt, count);
      if k <= |conversation| {
        var tail := conversation[k..];
        assert conversation == conversation[..k] + tail;
        SelectConcat(conversation[..k], tail, true);
        SelectConcat(system, tail, true);
        SelectConcat(system, tail, false);
        SelectOfTail(conversation, k);
      }
    }
  }

  lemma {:induction false} SelectIsShorter(turns: seq<Turn>, system: bool)
    ensures |Select(turns, system)| <= |turns|
    ensures |Select(turns, system)| == |turns| ==> Select(turns, system) == turns
  {
    if turns != [] { SelectIsShorter(turns[1..], system); }
  }

  /** No longer proper suffix fits: what was dropped had to be dropped. */
  lemma TruncationIsLongest(turns: seq<Turn>, limit: int, prompt: string, count: Counter, k: nat)
    requires limit > 0 && !Fits(turns, limit, prompt, count)
    requires 1 <= k <= |Select(turns, false)|
    requires Fits(Select(turns, true) + Select(turns, false)[k..], limit, prompt, count)
    ensures |Truncated(turns, limit, prompt, count)| >= |Select(turns, true) + Select(turns, false)[k..]|
    ensures Fits(Truncated(turns, limit, prompt, count), limit, prompt, count)
  {
    hide Fits;
  }

  /** Truncating a second time changes nothing. */
  lemma TruncationIsIdempotent(turns: seq<Turn>, limit: int, prompt: string, count: Counter)
    ensures var r := Truncated(turns, limit, prompt, count); Truncated(r, limit, prompt, count) == r
  {
    hide Fits;
    TruncationKeepsSystemAndTail(turns, limit, prompt, count);
    SelectOfSelected(turns, true);
  }
}
