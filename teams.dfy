/** The specialist teams, the facade that lets the supervisor call a whole team
    as if it were one tool, and the supervisor's act step (`call_teams_node`),
    which dispatches each requested call to one of the three team tools. */
module Teams {
  import opened Messages
  import opened ToolsNode
  import opened GraphLoop

  /** A compiled team graph: its language model (already bound to the team's system
      prompt and tool schemas), its tools, and its step budget. */
  datatype Team = Team(oracle: Oracle, tools: seq<Tool>, fuel: nat)

  /** The team's act node is `call_tools` over the team's own registry. */
  function TeamAct(team: Team): Act
  {
    calls => ToolResults(team.tools, calls)
  }

  /** A team run started from a fresh state, one human message with the query (the
      team's name in the source's state only labels log lines): every state it goes
      through begins with that message, so nothing of the caller's conversation reaches
      the team; its steps alternate the team's model and `call_tools` over the team's
      own tools; and it fails only by the team model's error or the team's budget. */
  function TeamRun(team: Team, teamName: string, query: string): (t: Trace)
    ensures |t.snapshots| > 0 && t.snapshots[0] == [Human(query)]
    ensures forall k | 0 <= k < |t.snapshots| :: [Human(query)] <= t.snapshots[k]
    ensures Alternates(team.oracle, calls => ToolResults(team.tools, calls), t.snapshots)
    ensures t.failure.Some? ==>
              || (|t.snapshots| / 2 < team.fuel && team.oracle(Last(t.snapshots)) == OracleFailed(t.failure.value))
              || (|t.snapshots| / 2 == team.fuel && t.failure.value == StepLimitError)
  {
    var t := Run(team.oracle, TeamAct(team), [Human(query)], team.fuel);
    RunAlternates(team.oracle, TeamAct(team), [Human(query)], team.fuel);
    RunFailureCause(team.oracle, TeamAct(team), [Human(query)], team.fuel);
    assert forall k | 0 <= k < |t.snapshots| :: [Human(query)] <= t.snapshots[k] by {
      forall k | 0 <= k < |t.snapshots|
        ensures [Human(query)] <= t.snapshots[k]
      {
        RunIsAppendOnly(team.oracle, TeamAct(team), [Human(query)], team.fuel, 0, k);
      }
    }
    t
  }

  /** `orders_team_tool` and its two siblings: run the team graph on a fresh state and
      return the content of the final state's last message. What the run raises is
      not caught here: it reaches the supervisor's act step. */
  function TeamFacade(team: Team, teamName: string, query: string): (r: Result<string>)
    ensures r.Raised? <==> TeamRun(team, teamName, query).failure.Some?
    ensures r.Raised? ==> r.error == TeamRun(team, teamName, query).failure.value
  {
    var t := TeamRun(team, teamName, query);
    if t.failure.Some? then Raised(t.failure.value)
    else
      RunEndsWithPlainAnswer(team.oracle, TeamAct(team), [Human(query)], team.fuel);
      Ok(Last(Last(t.snapshots)).content)
  }

  /** What a facade call returns is the team's own final answer: its run started from
      exactly one human message holding the query, ended normally, and the answer is
      the text of the last, tool-call-free assistant message. */
  lemma FacadeReturnsTeamAnswer(team: Team, teamName: string, query: string)
    requires TeamFacade(team, teamName, query).Ok?
    ensures TeamRun(team, teamName, query).snapshots[0] == [Human(query)]
    ensures |Last(TeamRun(team, teamName, query).snapshots)| > 0
    ensures IsFinalAnswer(Last(Last(TeamRun(team, teamName, query).snapshots)))
    ensures Last(Last(TeamRun(team, teamName, query).snapshots)).content == TeamFacade(team, teamName, query).value
  {
    RunEndsWithPlainAnswer(team.oracle, TeamAct(team), [Human(query)], team.fuel);
  }

  /** A team whose model answers the query at once, without calling tools, hands that answer back. */
  lemma DirectAnswerPassesThrough(team: Team, teamName: string, query: string, answer: string)
    requires team.fuel > 0
    requires team.oracle([Human(query)]) == Answer(answer, [])
    ensures TeamFacade(team, teamName, query) == Ok(answer)
  {
    StopsAtFirstPlainAnswer(team.oracle, TeamAct(team), [Human(query)], 0, team.fuel);
  }

  // The tool names the supervisor's model may call.
  const OrdersTool: string := "orders_team_tool"
  const RefundPaymentTool: string := "refund_payment_team_tool"
  const HumanEscalationTool: string := "human_escalation_team_tool"

  /** The supervisor graph: its model (bound to the routing prompt and the three team
      tools), the three compiled teams, and its step budget. */
  datatype Supervisor = Supervisor(oracle: Oracle, orders: Team, refundsPayment: Team, humanEscalation: Team, fuel: nat)

  /** The team graphs as the source builds them: each with its own model and its own tools. */
  function CompileTeams(
    supervisorModel: Oracle, ordersModel: Oracle, refundsModel: Oracle, escalationModel: Oracle,
    getOrderStatus: Args -> Result<string>, getRefundStatus: Args -> Result<string>,
    getPaymentDetails: Args -> Result<string>, createSupportTicket: Args -> Result<string>,
    teamFuel: nat, supervisorFuel: nat): (sup: Supervisor)
    ensures sup.oracle == supervisorModel && sup.fuel == supervisorFuel
    ensures sup.orders.oracle == ordersModel && sup.refundsPayment.oracle == refundsModel
    ensures sup.humanEscalation.oracle == escalationModel
    ensures ToolMap(sup.orders.tools).Keys == {"get_order_status_tool"}
    ensures ToolMap(sup.orders.tools)["get_order_status_tool"] == getOrderStatus
    ensures ToolMap(sup.refundsPayment.tools).Keys == {"get_refund_status_tool", "get_payment_details_tool"}
    ensures ToolMap(sup.refundsPayment.tools)["get_refund_status_tool"] == getRefundStatus
    ensures ToolMap(sup.refundsPayment.tools)["get_payment_details_tool"] == getPaymentDetails
    ensures ToolMap(sup.humanEscalation.tools).Keys == {"create_support_ticket_tool"}
    ensures ToolMap(sup.humanEscalation.tools)["create_support_ticket_tool"] == createSupportTicket
    ensures sup.orders.fuel == teamFuel && sup.refundsPayment.fuel == teamFuel && sup.humanEscalation.fuel == teamFuel
  {
    Supervisor(
      supervisorModel,
      Team(ordersModel, [Tool("get_order_status_tool", getOrderStatus)], teamFuel),
      Team(refundsModel, [Tool("get_refund_status_tool", getRefundStatus),
                          Tool("get_payment_details_tool", getPaymentDetails)], teamFuel),
      Team(escalationModel, [Tool("create_support_ticket_tool", createSupportTicket)], teamFuel),
      supervisorFuel)
  }

  /** An entry of the supervisor's `tool_map`: the team graph and the name its facade puts in the state. */
  datatype TeamTool = TeamTool(team: Team, teamName: string)

  /** `tool_map` over `supervisor_tools`: exactly the three team tools, each bound to
      its own team graph and the team name its facade puts in the state. */
  function TeamMap(sup: Supervisor): (m: map<string, TeamTool>)
    ensures m.Keys == {OrdersTool, RefundPaymentTool, HumanEscalationTool}
    ensures m[OrdersTool] == TeamTool(sup.orders, "Orders")
    ensures m[RefundPaymentTool] == TeamTool(sup.refundsPayment, "Refunds_Payment")
    ensures m[HumanEscalationTool] == TeamTool(sup.humanEscalation, "Human_Escalation")
  {
    map[OrdersTool := TeamTool(sup.orders, "Orders"),
        RefundPaymentTool := TeamTool(sup.refundsPayment, "Refunds_Payment"),
        HumanEscalationTool := TeamTool(sup.humanEscalation, "Human_Escalation")]
  }

  /** `f"Error executing team {name}: {e}"`. */
  function TeamError(name: string, e: string): string
  {
    "Error executing team " + name + ": " + e
  }

  const MissingQuery: string := "Team tool called without 'query' argument."

  /** One iteration of the loop in `call_teams_node`: look the name up (an unknown name
      raises KeyError), read `query` (absent or None raises), run the facade; any
      exception becomes an error result. */
  function ResolveTeamCall(sup: Supervisor, call: ToolCall): (r: Message)
    ensures r.ToolResult? && r.toolCallId == call.id
    ensures call.name !in TeamMap(sup) ==> r.content == TeamError(call.name, KeyErrorText(call.name))
    ensures call.name in TeamMap(sup) && Get(call.args, "query") in {None, Some(Null)} ==>
              r.content == TeamError(call.name, MissingQuery)
    ensures call.name in TeamMap(sup) && Get(call.args, "query").Some? && Get(call.args, "query").value.Text? ==>
              var entry := TeamMap(sup)[call.name];
              var answer := TeamFacade(entry.team, entry.teamName, Get(call.args, "query").value.s);
              && (answer.Ok? ==> r.content == answer.value)
              && (answer.Raised? ==> r.content == TeamError(call.name, answer.error))
  {
    var teamMap := TeamMap(sup);
    if call.name !in teamMap then ToolResult(call.id, TeamError(call.name, KeyErrorText(call.name)))
    else match Get(call.args, "query")
      case None => ToolResult(call.id, TeamError(call.name, MissingQuery))
      case Some(Null) => ToolResult(call.id, TeamError(call.name, MissingQuery))
      case Some(Text(query)) =>
        var entry := teamMap[call.name];
        match TeamFacade(entry.team, entry.teamName, query)
        case Ok(output) => ToolResult(call.id, output)
        case Raised(e) => ToolResult(call.id, TeamError(call.name, e))
  }

  function TeamResolver(sup: Supervisor): ToolCall -> Message
  {
    call => ResolveTeamCall(sup, call)
  }

  /** What `call_teams_node` returns for a list of calls. */
  function TeamResults(sup: Supervisor, calls: seq<ToolCall>): (r: seq<Message>)
    ensures |r| == |calls|
    ensures forall i | 0 <= i < |calls| :: r[i].ToolResult? && r[i].toolCallId == calls[i].id
  {
    Dispatch(TeamResolver(sup), calls)
  }

  /** Only the three team tools are ever run: any other name yields the KeyError result,
      whatever the arguments, and the result does not depend on any team. */
  lemma OnlyTeamToolsDispatched(sup: Supervisor, other: Supervisor, call: ToolCall)
    requires call.name !in {OrdersTool, RefundPaymentTool, HumanEscalationTool}
    ensures ResolveTeamCall(sup, call) == ToolResult(call.id, TeamError(call.name, KeyErrorText(call.name)))
    ensures ResolveTeamCall(sup, call) == ResolveTeamCall(other, call)
  {
  }

  /** A known team called without a usable `query` is never run: the result is the
      fixed error, the same whatever the teams would have done. */
  lemma MissingQueryNeverRunsTeam(sup: Supervisor, other: Supervisor, call: ToolCall)
    requires call.name in {OrdersTool, RefundPaymentTool, HumanEscalationTool}
    requires "query" !in call.args || call.args["query"] == Null
    ensures ResolveTeamCall(sup, call) == ToolResult(call.id, TeamError(call.name, MissingQuery))
    ensures ResolveTeamCall(sup, call) == ResolveTeamCall(other, call)
  {
  }

  /** A call naming the orders team with a query reports what a fresh "Orders" run
      answers, or the error that run raised, prefixed with the team tool's name. */
  lemma OrdersCallRunsOrdersTeam(sup: Supervisor, call: ToolCall, query: string)
    requires call.name == OrdersTool && "query" in call.args && call.args["query"] == Text(query)
    ensures TeamFacade(sup.orders, "Orders", query).Ok? ==>
              ResolveTeamCall(sup, call) == ToolResult(call.id, TeamFacade(sup.orders, "Orders", query).value)
    ensures TeamFacade(sup.orders, "Orders", query).Raised? ==>
              ResolveTeamCall(sup, call) ==
                ToolResult(call.id, TeamError(OrdersTool, TeamRun(sup.orders, "Orders", query).failure.value))
  {
  }

  /** `call_teams_node`: resolve every call of the last message in order. */
  method CallTeams(sup: Supervisor, messages: seq<Message>) returns (toolMessages: seq<Message>)
    requires |messages| > 0 && Last(messages).Assistant?
    ensures toolMessages == TeamResults(sup, Last(messages).toolCalls)
    ensures |toolMessages| == |Last(messages).toolCalls|
    ensures forall i | 0 <= i < |toolMessages| ::
              toolMessages[i].ToolResult? && toolMessages[i].toolCallId == Last(messages).toolCalls[i].id
  {
    var toolMap := TeamMap(sup);
    var calls := Last(messages).toolCalls;
    toolMessages := [];
    for i := 0 to |calls|
      invariant |toolMessages| == i
      invariant forall k | 0 <= k < i :: toolMessages[k] == ResolveTeamCall(sup, calls[k])
    {
      var call := calls[i];
      var result;
      if call.name !in toolMap {
        result := ToolResult(call.id, TeamError(call.name, KeyErrorText(call.name)));
      } else {
        var query := Get(call.args, "query");
        if query == None || query == Some(Null) {
          result := ToolResult(call.id, TeamError(call.name, MissingQuery));
        } else {
          var entry := toolMap[call.name];
          var output := TeamFacade(entry.team, entry.teamName, query.value.s);
          if output.Ok? {
            result := ToolResult(call.id, output.value);
          } else {
            result := ToolResult(call.id, TeamError(call.name, output.error));
          }
        }
      }
      toolMessages := toolMessages + [result];
    }
    assert toolMessages == Dispatch(TeamResolver(sup), calls);
  }

  /** The supervisor's act node. */
  function SupervisorAct(sup: Supervisor): Act
  {
    calls => TeamResults(sup, calls)
  }

  /** One supervisor run (the compiled `workflow`) from an input state: its steps
      alternate the supervisor's model and `call_teams_node`, and it fails only by the
      supervisor model's error or the supervisor's budget. */
  function SupervisorRun(sup: Supervisor, input: seq<Message>): (t: Trace)
    ensures |t.snapshots| > 0 && t.snapshots[0] == input
    ensures Alternates(sup.oracle, calls => TeamResults(sup, calls), t.snapshots)
    ensures t.failure.Some? ==>
              || (|t.snapshots| / 2 < sup.fuel && sup.oracle(Last(t.snapshots)) == OracleFailed(t.failure.value))
              || (|t.snapshots| / 2 == sup.fuel && t.failure.value == StepLimitError)
  {
    var t := Run(sup.oracle, SupervisorAct(sup), input, sup.fuel);
    RunAlternates(sup.oracle, SupervisorAct(sup), input, sup.fuel);
    RunFailureCause(sup.oracle, SupervisorAct(sup), input, sup.fuel);
    t
  }
}
