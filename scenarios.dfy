/** Two end-to-end runs of `/chat/stream` with scripted models: a delegation to the
    orders team, and a question no team covers. */
module Scenarios {
  import opened Messages
  import opened ToolsNode
  import opened GraphLoop
  import opened Teams
  import opened Stream
  import opened Api

  const Delegation: ToolCall := ToolCall("call_1", OrdersTool, map["query" := Text("tracking 7")])

  /** The supervisor's model delegates a fresh human question to the orders team and
      answers once a team report is in. */
  function RoutingModel(): Oracle
  {
    (h: seq<Message>) => if |h| > 0 && Last(h).Human? then Answer("", [Delegation]) else Answer("Your order 7 has shipped.", [])
  }

  /** The orders team's model answers at once. */
  function OrdersModel(): Oracle
  {
    h => Answer("Order 7 is shipped.", [])
  }

  function NoTool(): Args -> Result<string>
  {
    args => Raised("unused")
  }

  function ScriptedSupervisor(routing: Oracle): Supervisor
  {
    CompileTeams(routing, OrdersModel(), OrdersModel(), OrdersModel(), NoTool(), NoTool(), NoTool(), NoTool(), 3, 3)
  }

  /** The orders team reports back through the facade. */
  lemma DelegationReport()
    ensures TeamResults(ScriptedSupervisor(RoutingModel()), [Delegation]) == [ToolResult("call_1", "Order 7 is shipped.")]
  {
    var sup := ScriptedSupervisor(RoutingModel());
    DirectAnswerPassesThrough(sup.orders, "Orders", "tracking 7", "Order 7 is shipped.");
    assert ResolveTeamCall(sup, Delegation) == ToolResult("call_1", "Order 7 is shipped.");
  }

  /** The supervisor's run: plan, team report, answer. */
  lemma OrderStatusRun(input: seq<Message>)
    requires input == [Human("check status of tracking number 7")]
    ensures var planned := input + [Assistant("", [Delegation])];
      var acted := planned + [ToolResult("call_1", "Order 7 is shipped.")];
      Run(RoutingModel(), SupervisorAct(ScriptedSupervisor(RoutingModel())), input, 3) ==
        Trace([input, planned, acted, acted + [Assistant("Your order 7 has shipped.", [])]], None)
  {
    var sup := ScriptedSupervisor(RoutingModel());
    var act := SupervisorAct(sup);
    DelegationReport();
    var planned := input + [Assistant("", [Delegation])];
    var acted := planned + [ToolResult("call_1", "Order 7 is shipped.")];
    var answered := acted + [Assistant("Your order 7 has shipped.", [])];
    assert RoutingModel()(input) == Answer("", [Delegation]);
    assert act([Delegation]) == [ToolResult("call_1", "Order 7 is shipped.")];
    assert RoutingModel()(acted) == Answer("Your order 7 has shipped.", []);
    assert Loop(RoutingModel(), act, acted, 2) == Trace([answered], None);
    assert Loop(RoutingModel(), act, input, 3) == Trace([planned, acted, answered], None);
  }

  /** The events for the run's snapshots after the first. */
  lemma OrderStatusSteps(planned: seq<Message>, acted: seq<Message>, answered: seq<Message>)
    requires |planned| > 0 && Last(planned) == Assistant("", [Delegation])
    requires |acted| > 0 && Last(acted) == ToolResult("call_1", "Order 7 is shipped.")
    requires |answered| > 0 && Last(answered) == Assistant("Your order 7 has shipped.", [])
    ensures StepEvents("s1", [planned, acted, answered], None) ==
      [SupervisorPlan("s1", OrdersTool, Text("tracking 7")),
       TeamReport("s1", "Order 7 is shipped."), FinalAnswer("s1", "Your order 7 has shipped.")]
  {
    assert StepEvents("s1", [answered], None) == [FinalAnswer("s1", "Your order 7 has shipped.")];
    assert [acted, answered][1..] == [answered];
    assert StepEvents("s1", [acted, answered], None) ==
      [TeamReport("s1", "Order 7 is shipped."), FinalAnswer("s1", "Your order 7 has shipped.")];
    assert GetOr(Delegation.args, "query", NoQuery) == Text("tracking 7");
    assert [planned, acted, answered][1..] == [acted, answered];
  }

  /** The turn of an order-status question on a new thread. */
  lemma OrderStatusTurn()
    ensures var input := [Human("check status of tracking number 7")];
      var planned := input + [Assistant("", [Delegation])];
      var acted := planned + [ToolResult("call_1", "Order 7 is shipped.")];
      Turn(ScriptedSupervisor(RoutingModel()), map[], "s1", "check status of tracking number 7") ==
        Trace([input, planned, acted, acted + [Assistant("Your order 7 has shipped.", [])]], None)
  {
    var input := [Human("check status of tracking number 7")];
    assert Resume(map[], "s1", "check status of tracking number 7") == input;
    OrderStatusRun(input);
  }

  /** Plan, report, answer: the stream of an order-status question on a new thread. */
  lemma OrderStatusStream()
    ensures StreamEvents("s1", Turn(ScriptedSupervisor(RoutingModel()), map[], "s1", "check status of tracking number 7")) ==
      [ NewThread("s1"),
        SupervisorPlan("s1", OrdersTool, Text("tracking 7")),
        TeamReport("s1", "Order 7 is shipped."),
        FinalAnswer("s1", "Your order 7 has shipped.") ]
  {
    var input := [Human("check status of tracking number 7")];
    var planned := input + [Assistant("", [Delegation])];
    var acted := planned + [ToolResult("call_1", "Order 7 is shipped.")];
    var answered := acted + [Assistant("Your order 7 has shipped.", [])];
    OrderStatusTurn();
    OrderStatusSteps(planned, acted, answered);
    assert [input, planned, acted, answered][1..] == [planned, acted, answered];
    assert StepEvents("s1", [input, planned, acted, answered], None) == StepEvents("s1", [planned, acted, answered], None);
  }

  /** The supervisor's model when no team fits: it answers at once. */
  function DecliningModel(): Oracle
  {
    h => Answer("I can only help with orders.", [])
  }

  /** A question no team covers: the stream holds only `new_thread` and one `final_answer`,
      whatever the thread already held. */
  lemma UnrelatedQuestionStream(sessions: Sessions)
    ensures StreamEvents("s2", Turn(ScriptedSupervisor(DecliningModel()), sessions, "s2", "what's the weather")) ==
      [NewThread("s2"), FinalAnswer("s2", "I can only help with orders.")]
  {
    var sup := ScriptedSupervisor(DecliningModel());
    var input := Resume(sessions, "s2", "what's the weather");
    var answered := input + [Assistant("I can only help with orders.", [])];
    assert DecliningModel()(input) == Answer("I can only help with orders.", []);
    assert Loop(DecliningModel(), SupervisorAct(sup), input, 3) == Trace([answered], None);
    assert Last(input).Human?;
    assert StepEvents("s2", [answered], None) == [FinalAnswer("s2", "I can only help with orders.")];
    assert [input, answered][1..] == [answered];
  }
}
