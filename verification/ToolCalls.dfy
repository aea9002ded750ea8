/** Lists of tool calls: the serial limit, and the split into server-side (MCP) and client-side calls. */
module ToolCalls {
  import A = AssistantOutput

  function Limited(calls: seq<A.ToolCall>, serial: bool): seq<A.ToolCall> {
    if serial && |calls| > 1 then calls[..1] else calls
  }

  function Mcp(calls: seq<A.ToolCall>, isMcp: string -> bool): (r: seq<A.ToolCall>)
    ensures |r| <= |calls|
  {
    if calls == [] then [] else (if isMcp(calls[0].name) then [calls[0]] else []) + Mcp(calls[1..], isMcp)
  }

  function Client(calls: seq<A.ToolCall>, isMcp: string -> bool): (r: seq<A.ToolCall>)
    ensures |r| + |Mcp(calls, isMcp)| == |calls|
  {
    if calls == [] then [] else (if isMcp(calls[0].name) then [] else [calls[0]]) + Client(calls[1..], isMcp)
  }

  lemma {:induction false} McpMembers(calls: seq<A.ToolCall>, isMcp: string -> bool)
    ensures forall c :: c in Mcp(calls, isMcp) <==> c in calls && isMcp(c.name)
  {
    if calls != [] {
      assert calls == [calls[0]] + calls[1..];
      McpMembers(calls[1..], isMcp);
    }
  }

  /** With serial calls only the first one is kept. */
  lemma LimitedIs(calls: seq<A.ToolCall>, serial: bool)
    ensures var r := Limited(calls, serial);
            r <= calls && |r| == if serial && calls != [] then 1 else |calls|
  {
  }

  /** Each call goes to its own side, and both sides keep the order of the calls. */
  lemma SplitKeepsOrder(before: seq<A.ToolCall>, call: A.ToolCall, isMcp: string -> bool)
    ensures Mcp(before + [call], isMcp) == Mcp(before, isMcp) + (if isMcp(call.name) then [call] else [])
    ensures Client(before + [call], isMcp) == Client(before, isMcp) + (if isMcp(call.name) then [] else [call])
  {
    McpLast(before, call, isMcp);
    ClientLast(before, call, isMcp);
  }

  lemma {:induction false} McpLast(before: seq<A.ToolCall>, call: A.ToolCall, isMcp: string -> bool)
    ensures Mcp(before + [call], isMcp) == Mcp(before, isMcp) + (if isMcp(call.name) then [call] else [])
  {
    if before == [] {
      assert before + [call] == [call] && [call][1..] == [];
    } else {
      var all := before + [call];
      assert all[0] == before[0] && all[1..] == before[1..] + [call];
      McpLast(before[1..], call, isMcp);
    }
  }

  lemma {:induction false} ClientLast(before: seq<A.ToolCall>, call: A.ToolCall, isMcp: string -> bool)
    ensures Client(before + [call], isMcp) == Client(before, isMcp) + (if isMcp(call.name) then [] else [call])
  {
    hide Mcp;
    if before == [] {
      assert before + [call] == [call] && [call][1..] == [];
    } else {
      var all := before + [call];
      assert all[0] == before[0] && all[1..] == before[1..] + [call];
      ClientLast(before[1..], call, isMcp);
    }
  }

  /** Sorts calls into server-side and client-side ones. */
  method Split(calls: seq<A.ToolCall>, isMcp: string -> bool) returns (mcp: seq<A.ToolCall>, client: seq<A.ToolCall>)
    ensures mcp == Mcp(calls, isMcp) && client == Client(calls, isMcp)
  {
    hide Mcp, Client;
    mcp, client := [], [];
    SplitEnd(isMcp);
    assert calls[0..] == calls;
    var i := 0;
    while i < |calls|
      invariant 0 <= i <= |calls|
      invariant mcp + Mcp(calls[i..], isMcp) == Mcp(calls, isMcp)
      invariant client + Client(calls[i..], isMcp) == Client(calls, isMcp)
    {
      SplitStep(calls, i, isMcp);
      if isMcp(calls[i].name) { mcp := mcp + [calls[i]]; } else { client := client + [calls[i]]; }
      i := i + 1;
    }
    assert calls[i..] == [];
  }

  lemma SplitStep(calls: seq<A.ToolCall>, i: nat, isMcp: string -> bool)
    requires i < |calls|
    ensures Mcp(calls[i..], isMcp) == (if isMcp(calls[i].name) then [calls[i]] else []) + Mcp(calls[i + 1..], isMcp)
    ensures Client(calls[i..], isMcp) ==
              (if isMcp(calls[i].name) then [] else [calls[i]]) + Client(calls[i + 1..], isMcp)
  {
    assert calls[i..][1..] == calls[i + 1..];
  }

  lemma SplitEnd(isMcp: string -> bool)
    ensures Mcp([], isMcp) == [] && Client([], isMcp) == []
  {
  }
}
