/** The typed events of a Responses stream and the builders of their fixed groups. */
module ResponseEvents {
  // Given ids come from outside; fresh ones stand for uuids
  datatype ItemId = Given(text: string) | Fresh(n: nat)

  datatype Item =
    | MessageItem(id: ItemId, text: string)
    | ToolItem(id: ItemId, callId: ItemId, name: string, arguments: string)
    | ReasoningItem(id: ItemId, summary: string)

  // num is the sequence number, index the output index, part the content index
  datatype Event =
    | Created(num: nat)
    | InProgress(num: nat)
    | ItemAdded(num: nat, index: nat, item: Item)
    | PartAdded(num: nat, index: nat, id: ItemId, part: nat)
    | TextDelta(num: nat, index: nat, id: ItemId, part: nat, delta: string)
    | TextDone(num: nat, index: nat, id: ItemId, part: nat, text: string)
    | PartDone(num: nat, index: nat, id: ItemId, part: nat, text: string)
    | ArgsDelta(num: nat, index: nat, id: ItemId, delta: string)
    | ArgsDone(num: nat, index: nat, id: ItemId, name: string, arguments: string)
    | ItemDone(num: nat, index: nat, item: Item)
    | Completed(num: nat, output: seq<Item>)
    | ErrorEvent(num: nat)
    | FailedEvent(num: nat)

  predicate Terminal(e: Event) { e.Completed? || e.FailedEvent? }

  function Prelude(num: nat): seq<Event> { [Created(num), InProgress(num + 1)] }

  function Failure(num: nat): seq<Event> { [ErrorEvent(num), FailedEvent(num + 1)] }

  function OpenMessage(num: nat, index: nat, id: ItemId): seq<Event> {
    [ItemAdded(num, index, MessageItem(id, [])), PartAdded(num + 1, index, id, 0)]
  }

  function CloseMessage(num: nat, index: nat, id: ItemId, text: string): seq<Event> {
    [TextDone(num, index, id, 0, text), PartDone(num + 1, index, id, 0, text),
     ItemDone(num + 2, index, MessageItem(id, text))]
  }

  function CloseTool(num: nat, index: nat, item: Item): seq<Event>
    requires item.ToolItem?
  {
    [ArgsDone(num, index, item.id, item.name, item.arguments), ItemDone(num + 1, index, item)]
  }

  const CHUNK := 32

  /** Arguments in pieces of 32 characters, at least one piece. */
  function ArgDeltas(args: string, num: nat, index: nat, id: ItemId): (es: seq<Event>)
    ensures |es| > 0
  {
    if |args| <= CHUNK then [ArgsDelta(num, index, id, args)]
    else [ArgsDelta(num, index, id, args[..CHUNK])] + ArgDeltas(args[CHUNK..], num + 1, index, id)
  }

  function ToolCallEvents(item: Item, index: nat, num: nat): seq<Event>
    requires item.ToolItem?
  {
    var deltas := ArgDeltas(item.arguments, num + 1, index, item.id);
    [ItemAdded(num, index, item)] + deltas + CloseTool(num + 1 + |deltas|, index, item)
  }

  lemma {:induction false} PieceCount(args: string, num: nat, index: nat, id: ItemId)
    ensures var n := |ArgDeltas(args, num, index, id)|;
            32 * (n - 1) + (if args == [] then 0 else 1) <= |args| <= 32 * n
    decreases |args|
  {
    if |args| > CHUNK { PieceCount(args[CHUNK..], num + 1, index, id); }
  }

  /** Every piece but the last has exactly 32 characters, the last at most as many, and none is empty
      unless the arguments are. */
  lemma {:induction false} PiecesAreFull(args: string, num: nat, index: nat, id: ItemId, i: nat)
    requires i < |ArgDeltas(args, num, index, id)|
    ensures var es := ArgDeltas(args, num, index, id);
            && 32 * i <= |args| && (args != [] ==> 32 * i < |args|)
            && es[i] == ArgsDelta(num + i, index, id, if i < |es| - 1 && 32 * (i + 1) <= |args|
                                                      then args[32 * i..32 * (i + 1)] else args[32 * i..])
            && (i < |es| - 1 ==> 32 * (i + 1) <= |args|) && (i == |es| - 1 ==> |args| <= 32 * (i + 1))
    decreases i
  {
    PieceCount(args, num, index, id);
    if i > 0 { PiecesAreFull(args[CHUNK..], num + 1, index, id, i - 1); }
  }

  lemma NextArgs(args: string, i: nat, num: nat, index: nat, id: ItemId)
    requires i <= |args|
    ensures ArgDeltas(args[i..], num, index, id) ==
              if i + CHUNK < |args|
              then [ArgsDelta(num, index, id, args[i..i + CHUNK])] + ArgDeltas(args[i + CHUNK..], num + 1, index, id)
              else [ArgsDelta(num, index, id, args[i..])]
  {
    assert i + CHUNK < |args| ==> args[i..][CHUNK..] == args[i + CHUNK..] && args[i..][..CHUNK] == args[i..i + CHUNK];
  }

  /** The chunk loop of build_function_tool_call_events. */
  method BuildFunctionToolCallEvents(item: Item, index: nat, num: nat) returns (events: seq<Event>, next: nat)
    requires item.ToolItem?
    ensures events == ToolCallEvents(item, index, num) && next == num + |events|
  {
    hide ArgDeltas;
    var n := num;
    events := [ItemAdded(n, index, item)];
    n := n + 1;
    var args := item.arguments;
    var i := 0;
    ghost var all := ArgDeltas(args, num + 1, index, item.id);
    assert args[0..] == args;
    var more := true;
    while more
      invariant more ==> 0 <= i <= |args| && (i == |args| ==> i == 0)
      invariant n == num + |events|
      invariant more ==> [ItemAdded(num, index, item)] + all == events + ArgDeltas(args[i..], n, index, item.id)
      invariant !more ==> [ItemAdded(num, index, item)] + all == events
      decreases if more then |args| - i + 1 else 0
    {
      var end := if i + CHUNK < |args| then i + CHUNK else |args|;
      assert args[i..|args|] == args[i..];
      events := events + [ArgsDelta(n, index, item.id, args[i..end])];
      NextArgs(args, i, n, index, item.id);
      n := n + 1;
      i := i + CHUNK;
      more := i < |args|;
    }
    events := events + CloseTool(n, index, item);
    next := n + 2;
  }
}
