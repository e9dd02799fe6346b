/** The act step of a team graph (`call_tools`): every tool call of the last
    assistant message is looked up by name in the team's tool registry and
    run, and each produces exactly one tool-result message, in request order,
    correlated by the call's id. Failures become "Error: ..." results. */
module ToolsNode {
  import opened Messages

  /** A registered tool: its name and its behaviour on an argument dictionary.
      A returned payload is already serialised (the JSON text of the output);
      `Raised` carries the text of the exception the tool (or serialisation) raised. */
  datatype Tool = Tool(name: string, run: Args -> Result<string>)

  /** `{tool.name: tool for tool in tools}`: a later tool with the same name replaces an earlier one. */
  function ToolMap(tools: seq<Tool>): (m: map<string, Args -> Result<string>>)
    ensures m.Keys == set i | 0 <= i < |tools| :: tools[i].name
  {
    if tools == [] then map[]
    else
      var init := tools[..|tools| - 1];
      assert forall i | 0 <= i < |init| :: init[i] == tools[i];
      ToolMap(init)[tools[|tools| - 1].name := tools[|tools| - 1].run]
  }

  /** The registry entry for a name is the behaviour of the LAST tool registered under it. */
  lemma {:induction false} ToolMapLastWins(tools: seq<Tool>, i: nat, args: Args)
    requires i < |tools|
    requires forall j | i < j < |tools| :: tools[j].name != tools[i].name
    ensures tools[i].name in ToolMap(tools)
    ensures ToolMap(tools)[tools[i].name](args) == tools[i].run(args)
  {
    if i < |tools| - 1 {
      var init := tools[..|tools| - 1];
      assert forall j | i < j < |init| :: init[j] == tools[j];
      ToolMapLastWins(init, i, args);
    }
  }

  /** Error text of a call whose tool failed: `f"Error: {e}"`. */
  function ToolError(e: string): string
  {
    "Error: " + e
  }

  /** One iteration of the loop in `call_tools`, as a value: the result message for one call. */
  function ResolveToolCall(tools: seq<Tool>, call: ToolCall): (r: Message)
    ensures r.ToolResult? && r.toolCallId == call.id
    ensures call.name !in ToolMap(tools) ==> r.content == ToolError(KeyErrorText(call.name))
    ensures call.name in ToolMap(tools) && ToolMap(tools)[call.name](call.args).Raised? ==>
              r.content == ToolError(ToolMap(tools)[call.name](call.args).error)
    ensures call.name in ToolMap(tools) && ToolMap(tools)[call.name](call.args).Ok? ==>
              r.content == ToolMap(tools)[call.name](call.args).value
  {
    var toolMap := ToolMap(tools);
    if call.name !in toolMap then ToolResult(call.id, ToolError(KeyErrorText(call.name)))
    else match toolMap[call.name](call.args)
      case Ok(output) => ToolResult(call.id, output)
      case Raised(e) => ToolResult(call.id, ToolError(e))
  }

  /** The messages an act step returns: one result per call, in request order,
      each computed by `resolve` alone (no call sees what an earlier call did). */
  function Dispatch(resolve: ToolCall -> Message, calls: seq<ToolCall>): (r: seq<Message>)
    ensures |r| == |calls|
    ensures forall i | 0 <= i < |calls| :: r[i] == resolve(calls[i])
  {
    if calls == [] then [] else [resolve(calls[0])] + Dispatch(resolve, calls[1..])
  }

  /** Splitting the calls splits the results: a failed call never stops or alters the results of the calls after it. */
  lemma {:induction false} DispatchAppend(resolve: ToolCall -> Message, first: seq<ToolCall>, rest: seq<ToolCall>)
    ensures Dispatch(resolve, first + rest) == Dispatch(resolve, first) + Dispatch(resolve, rest)
  {
    if first != [] {
      assert (first + rest)[1..] == first[1..] + rest;
      DispatchAppend(resolve, first[1..], rest);
    }
  }

  function ToolResolver(tools: seq<Tool>): ToolCall -> Message
  {
    call => ResolveToolCall(tools, call)
  }

  /** What `call_tools` returns for a list of calls. */
  function ToolResults(tools: seq<Tool>, calls: seq<ToolCall>): (r: seq<Message>)
    ensures |r| == |calls|
    ensures forall i | 0 <= i < |calls| :: r[i].ToolResult? && r[i].toolCallId == calls[i].id
  {
    Dispatch(ToolResolver(tools), calls)
  }

  /** `call_tools`: build the registry, then resolve every call of the last message in order. */
  method CallTools(tools: seq<Tool>, messages: seq<Message>) returns (toolMessages: seq<Message>)
    requires |messages| > 0 && Last(messages).Assistant?
    ensures toolMessages == ToolResults(tools, Last(messages).toolCalls)
    ensures |toolMessages| == |Last(messages).toolCalls|
    ensures forall i | 0 <= i < |toolMessages| ::
              toolMessages[i].ToolResult? && toolMessages[i].toolCallId == Last(messages).toolCalls[i].id
  {
    var toolMap: map<string, Args -> Result<string>> := map[];
    var j := 0;
    while j < |tools|
      invariant 0 <= j <= |tools|
      invariant toolMap == ToolMap(tools[..j])
    {
      assert tools[..j + 1][..j] == tools[..j];
      toolMap := toolMap[tools[j].name := tools[j].run];
      j := j + 1;
    }
    assert tools[..|tools|] == tools;
    var calls := Last(messages).toolCalls;
    toolMessages := [];
    for i := 0 to |calls|
      invariant |toolMessages| == i
      invariant forall k | 0 <= k < i :: toolMessages[k] == ResolveToolCall(tools, calls[k])
    {
      var call := calls[i];
      var result;
      if call.name !in toolMap {
        result := ToolResult(call.id, ToolError(KeyErrorText(call.name)));
      } else {
        match toolMap[call.name](call.args)
        case Ok(output) => result := ToolResult(call.id, output);
        case Raised(e) => result := ToolResult(call.id, ToolError(e));
      }
      toolMessages := toolMessages + [result];
    }
    assert toolMessages == Dispatch(ToolResolver(tools), calls);
  }
}
