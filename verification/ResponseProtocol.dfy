/** The event protocol of a Responses stream, stated as an acceptor that knows nothing about the
    generator: it checks numbering, bracketing of items, output indices and contents. */
module ResponseProtocol {
  import opened KeyOrder
  import opened ResponseEvents
  import A = AssistantOutput

  // the item being written, with what its deltas have spelled out so far
  datatype Open =
    | Nothing
    | MessageNew(id: ItemId)
    | MessageText(id: ItemId, text: string)
    | MessageTextDone(id: ItemId, text: string)
    | MessagePartDone(id: ItemId, text: string)
    | ToolArgs(id: ItemId, callId: ItemId, name: string, args: string)
    | ToolArgsDone(item: Item)
    | Reasoning(id: ItemId, text: string)

  datatype Phase = Begun | CreatedSeen | Live | Failing | Ended

  // num and index are the next expected numbers; done lists finished items in order
  datatype Proto = Proto(num: nat, phase: Phase, open: Open, index: nat, done: seq<Item>)

  // exactText: a message's final text is exactly its deltas; otherwise leading white space may have
  // been dropped from the deltas. outputIsDone: response.output lists the finished items.
  datatype Rules = Rules(exactText: bool, outputIsDone: bool)

  const INITIAL := Proto(0, Begun, Nothing, 0, [])

  predicate Spelled(rules: Rules, streamed: string, text: string) {
    if rules.exactText then text == streamed
    else |streamed| <= |text| && text[|text| - |streamed|..] == streamed && A.Blank(text[..|text| - |streamed|])
  }

  predicate IdUnused(done: seq<Item>, id: ItemId) { forall i | 0 <= i < |done| :: done[i].id != id }

  function OpenFor(item: Item): Open {
    match item
    case MessageItem(id, _) => MessageNew(id)
    case ToolItem(id, callId, name, _) => ToolArgs(id, callId, name, [])
    case ReasoningItem(id, _) => Reasoning(id, [])
  }

  /** The item that may be reported done now. */
  predicate Finishes(open: Open, item: Item) {
    match open
    case MessagePartDone(id, text) => item == MessageItem(id, text)
    case ToolArgsDone(tool) => item == tool
    case Reasoning(id, text) => item == ReasoningItem(id, text)
    case _ => false
  }

  /** An event inside the items part of the stream; None when it breaks the protocol. */
  function AcceptItem(rules: Rules, p: Proto, e: Event): Option<Open>
    requires OfItem(e)
  {
    if e.index != p.index then None
    else match (p.open, e)
      case (Nothing, ItemAdded(_, _, item)) =>
        if item.id.Fresh? && !IdUnused(p.done, item.id) then None else Some(OpenFor(item))
      case (MessageNew(id), PartAdded(_, _, i, part)) =>
        if i == id && part == 0 then Some(MessageText(id, [])) else None
      case (MessageText(id, text), TextDelta(_, _, i, part, delta)) =>
        if i == id && part == 0 && delta != [] then Some(MessageText(id, text + delta)) else None
      case (MessageText(id, text), TextDone(_, _, i, part, final)) =>
        if i == id && part == 0 && Spelled(rules, text, final) then Some(MessageTextDone(id, final)) else None
      case (MessageTextDone(id, text), PartDone(_, _, i, part, final)) =>
        if i == id && part == 0 && final == text then Some(MessagePartDone(id, text)) else None
      case (ToolArgs(id, callId, name, args), ArgsDelta(_, _, i, delta)) =>
        if i == id then Some(ToolArgs(id, callId, name, args + delta)) else None
      case (ToolArgs(id, callId, name, args), ArgsDone(_, _, i, n, arguments)) =>
        if i == id && n == name && arguments == args then Some(ToolArgsDone(ToolItem(id, callId, name, args))) else None
      case (Reasoning(id, text), TextDelta(_, _, i, part, delta)) =>
        if i == id && part == 0 && delta != [] then Some(Reasoning(id, text + delta)) else None
      case (_, ItemDone(_, _, item)) => if Finishes(p.open, item) then Some(Nothing) else None
      case _ => None
  }

  predicate OfItem(e: Event) {
    !e.Created? && !e.InProgress? && !Terminal(e) && !e.ErrorEvent?
  }

  function Accept(rules: Rules, p: Proto, e: Event): Option<Proto> {
    var q := p.(num := p.num + 1);
    if e.num != p.num then None
    else if OfItem(e) then
      var open := AcceptItem(rules, p, e);
      if p.phase != Live || open.None? then None
      else if e.ItemDone? then Some(q.(open := Nothing, index := p.index + 1, done := p.done + [e.item]))
      else Some(q.(open := open.value))
    else if e.Created? then if p.phase == Begun then Some(q.(phase := CreatedSeen)) else None
    else if e.InProgress? then if p.phase == CreatedSeen then Some(q.(phase := Live)) else None
    else if e.ErrorEvent? then if p.phase == Begun || p.phase == Live then Some(q.(phase := Failing)) else None
    else if e.FailedEvent? then if p.phase == Failing then Some(q.(phase := Ended)) else None
    else if p.phase == Live && p.open == Nothing && (rules.outputIsDone ==> e.output == p.done)
      then Some(q.(phase := Ended)) else None
  }

  function AcceptAll(rules: Rules, p: Proto, es: seq<Event>): Option<Proto>
    decreases es
  {
    if es == [] then Some(p)
    else match Accept(rules, p, es[0])
      case None => None
      case Some(q) => AcceptAll(rules, q, es[1..])
  }

  lemma {:induction false} AcceptConcat(rules: Rules, p: Proto, a: seq<Event>, b: seq<Event>)
    ensures AcceptAll(rules, p, a + b)
         == match AcceptAll(rules, p, a) case None => None case Some(q) => AcceptAll(rules, q, b)
    decreases a
  {
    hide Accept;
    if a == [] {
      assert a + b == b;
    } else {
      assert (a + b)[1..] == a[1..] + b;
      match Accept(rules, p, a[0])
      case None =>
      case Some(q) => AcceptConcat(rules, q, a[1..], b);
    }
  }

  lemma AcceptOne(rules: Rules, p: Proto, e: Event)
    ensures AcceptAll(rules, p, [e]) == Accept(rules, p, e)
  {
    hide Accept;
    match Accept(rules, p, e)
    case None =>
    case Some(q) => assert AcceptAll(rules, q, []) == Some(q);
  }

  // ---- What acceptance means --------------------------------------------------------------------

  function DoneItem(e: Event): seq<Item> { if e.ItemDone? then [e.item] else [] }

  function DoneItems(es: seq<Event>): seq<Item> {
    if es == [] then [] else DoneItem(es[0]) + DoneItems(es[1..])
  }

  function AddedIndices(es: seq<Event>): seq<nat> {
    if es == [] then [] else (if es[0].ItemAdded? then [es[0].index] else []) + AddedIndices(es[1..])
  }

  function DoneIndices(es: seq<Event>): seq<nat> {
    if es == [] then [] else (if es[0].ItemDone? then [es[0].index] else []) + DoneIndices(es[1..])
  }

  function Range(first: nat, n: nat): seq<nat> { seq(n, i => first + i) }

  lemma RangeStep(first: nat, n: nat)
    ensures Range(first, n) == if n == 0 then [] else [first] + Range(first + 1, n - 1)
  {
  }

  // the index that the next added item will get
  function NextAdded(p: Proto): nat { if p.open == Nothing then p.index else p.index + 1 }

  /** What one accepted event does to the counts. */
  lemma AcceptCounts(rules: Rules, p: Proto, e: Event)
    requires Accept(rules, p, e).Some?
    ensures var q := Accept(rules, p, e).value;
            && e.num == p.num && q.num == p.num + 1
            && (q.phase == Ended <==> Terminal(e)) && p.phase != Ended
            && q.done == p.done + DoneItem(e)
            && (if e.ItemAdded? then e.index == NextAdded(p) && NextAdded(q) == NextAdded(p) + 1
                else NextAdded(q) == NextAdded(p))
            && (if e.ItemDone? then e.index == p.index && q.index == p.index + 1 else q.index == p.index)
  {
  }

  lemma {:induction false} AcceptedNumbers(rules: Rules, p: Proto, es: seq<Event>)
    requires AcceptAll(rules, p, es).Some?
    ensures var q := AcceptAll(rules, p, es).value;
            && q.num == p.num + |es| && q.done == p.done + DoneItems(es)
            && forall i | 0 <= i < |es| :: es[i].num == p.num + i
    decreases es
  {
    hide Accept, NextAdded, DoneItem;
    if es != [] {
      AcceptCounts(rules, p, es[0]);
      AcceptedNumbers(rules, Accept(rules, p, es[0]).value, es[1..]);
    }
  }

  lemma {:induction false} AcceptedDoneIndices(rules: Rules, p: Proto, es: seq<Event>)
    requires AcceptAll(rules, p, es).Some?
    ensures var q := AcceptAll(rules, p, es).value;
            q.index >= p.index && DoneIndices(es) == Range(p.index, q.index - p.index)
    decreases es
  {
    hide Accept, NextAdded, DoneItem, Range;
    if es == [] {
      RangeStep(p.index, 0);
    } else {
      var p' := Accept(rules, p, es[0]).value;
      AcceptCounts(rules, p, es[0]);
      AcceptedDoneIndices(rules, p', es[1..]);
      var q := AcceptAll(rules, p, es).value;
      if es[0].ItemDone? { RangeStep(p.index, q.index - p.index); }
    }
  }

  lemma {:induction false} AcceptedAddedIndices(rules: Rules, p: Proto, es: seq<Event>)
    requires AcceptAll(rules, p, es).Some?
    ensures var q := AcceptAll(rules, p, es).value;
            NextAdded(q) >= NextAdded(p) && AddedIndices(es) == Range(NextAdded(p), NextAdded(q) - NextAdded(p))
    decreases es
  {
    hide Accept, NextAdded, DoneItem, Range;
    if es == [] {
      RangeStep(NextAdded(p), 0);
    } else {
      var p' := Accept(rules, p, es[0]).value;
      AcceptCounts(rules, p, es[0]);
      AcceptedAddedIndices(rules, p', es[1..]);
      var q := AcceptAll(rules, p, es).value;
      if es[0].ItemAdded? { RangeStep(NextAdded(p), NextAdded(q) - NextAdded(p)); }
    }
  }

  /** Every item of an accepted stream is added once and done once, at consecutive output indices,
      the done events carry exactly the finished items, and the numbers have no gap or repeat. */
  lemma AcceptedIsBracketed(rules: Rules, p: Proto, es: seq<Event>)
    requires AcceptAll(rules, p, es).Some?
    ensures var q := AcceptAll(rules, p, es).value;
            && q.num == p.num + |es| && (forall i | 0 <= i < |es| :: es[i].num == p.num + i)
            && q.done == p.done + DoneItems(es)
            && q.index >= p.index && DoneIndices(es) == Range(p.index, q.index - p.index)
            && NextAdded(q) >= NextAdded(p) && AddedIndices(es) == Range(NextAdded(p), NextAdded(q) - NextAdded(p))
  {
    hide AcceptAll, NextAdded;
    AcceptedNumbers(rules, p, es);
    AcceptedDoneIndices(rules, p, es);
    AcceptedAddedIndices(rules, p, es);
  }

  /** A terminal event is the last of an accepted stream, and a stream ends with one exactly when it
      has ended. */
  lemma {:induction false} TerminalIsLast(rules: Rules, p: Proto, es: seq<Event>)
    requires AcceptAll(rules, p, es).Some?
    ensures forall i | 0 <= i < |es| - 1 :: !Terminal(es[i])
    ensures es != [] ==> (AcceptAll(rules, p, es).value.phase == Ended <==> Terminal(es[|es| - 1]))
    decreases es
  {
    hide Accept;
    if es != [] {
      var q := Accept(rules, p, es[0]).value;
      AcceptCounts(rules, p, es[0]);
      TerminalIsLast(rules, q, es[1..]);
      if es[1..] != [] && Terminal(es[0]) {
        AcceptCounts(rules, q, es[1]);
      }
    }
  }

  // ---- Deltas spell out the items ---------------------------------------------------------------

  /** All that is streamed at one output index. */
  function DeltasAt(es: seq<Event>, index: nat): string {
    if es == [] then []
    else (if (es[0].TextDelta? || es[0].ArgsDelta?) && es[0].index == index then es[0].delta else [])
         + DeltasAt(es[1..], index)
  }

  predicate ItemSpelled(rules: Rules, streamed: string, item: Item) {
    match item
    case MessageItem(_, text) => Spelled(rules, streamed, text)
    case ToolItem(_, _, _, arguments) => streamed == arguments
    case ReasoningItem(_, summary) => streamed == summary
  }

  predicate OpenSpelled(rules: Rules, streamed: string, open: Open) {
    match open
    case Nothing => streamed == []
    case MessageNew(_) => streamed == []
    case MessageText(_, text) => streamed == text
    case MessageTextDone(_, text) => Spelled(rules, streamed, text)
    case MessagePartDone(_, text) => Spelled(rules, streamed, text)
    case ToolArgs(_, _, _, args) => streamed == args
    case ToolArgsDone(item) => ItemSpelled(rules, streamed, item)
    case Reasoning(_, text) => streamed == text
  }

  lemma AcceptSpells(rules: Rules, p: Proto, e: Event, streamed: string)
    requires Accept(rules, p, e).Some? && OpenSpelled(rules, streamed, p.open)
    ensures var q := Accept(rules, p, e).value;
            && OpenSpelled(rules, if e.ItemDone? then [] else streamed + DeltasAt([e], p.index), q.open)
            && (e.ItemDone? ==> ItemSpelled(rules, streamed, e.item))
            && forall i | i != p.index || e.ItemDone? :: DeltasAt([e], i) == []
  {
    hide Spelled;
    assert DeltasAt([], p.index) == [];
    assert DeltasAt([e], p.index) == if e.TextDelta? || e.ArgsDelta? then e.delta else [];
    assert streamed + [] == streamed;
  }

  lemma DeltasAtNothing(index: nat)
    ensures DeltasAt([], index) == []
  {
  }

  lemma DeltasSplit(es: seq<Event>, index: nat)
    requires es != []
    ensures DeltasAt(es, index) == DeltasAt([es[0]], index) + DeltasAt(es[1..], index)
  {
    assert [es[0]][1..] == [];
    DeltasAtNothing(index);
  }

  /** The deltas at an item's index, concatenated, are the item's content: arguments and reasoning
      exactly, a message's text up to what the rules allow. */
  lemma {:induction false} DeltasSpellItems(rules: Rules, p: Proto, es: seq<Event>, streamed: string)
    requires AcceptAll(rules, p, es).Some? && OpenSpelled(rules, streamed, p.open) && p.index == |p.done|
    ensures var q := AcceptAll(rules, p, es).value;
            && p.done <= q.done && |q.done| == q.index
            && (forall i | 0 <= i < p.index :: DeltasAt(es, i) == [])
            && forall i | p.index <= i < q.index ::
                 ItemSpelled(rules, (if i == p.index then streamed else []) + DeltasAt(es, i), q.done[i])
    decreases es
  {
    hide Accept, OpenSpelled, ItemSpelled, DeltasAt, DoneItems, DoneIndices, AddedIndices;
    forall i: nat ensures DeltasAt([], i) == [] { DeltasAtNothing(i); }
    if es != [] {
      var e, p' := es[0], Accept(rules, p, es[0]).value;
      AcceptCounts(rules, p, e);
      AcceptSpells(rules, p, e, streamed);
      var streamed' := if e.ItemDone? then [] else streamed + DeltasAt([e], p.index);
      DeltasSpellItems(rules, p', es[1..], streamed');
      var q := AcceptAll(rules, p, es).value;
      assert e.ItemDone? ==> DoneItem(e) == [e.item];
      hide DoneItem;
      forall i: nat ensures DeltasAt(es, i) == DeltasAt([e], i) + DeltasAt(es[1..], i) {
        DeltasSplit(es, i);
      }
      forall i | p.index <= i < q.index
        ensures ItemSpelled(rules, (if i == p.index then streamed else []) + DeltasAt(es, i), q.done[i])
      {
        var whole := (if i == p.index then streamed else []) + DeltasAt(es, i);
        if i == p.index && e.ItemDone? {
          assert whole == streamed && q.done[i] == e.item;
        } else {
          var rest := (if i == p'.index then streamed' else []) + DeltasAt(es[1..], i);
          assert ItemSpelled(rules, rest, q.done[i]);
          assert whole == rest;
        }
      }
    }
  }
}
