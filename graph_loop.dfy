/** The two-node execution graph shared by every team and by the supervisor:
    entry at the agent node, a conditional edge from the agent to the act
    node or to END, and an unconditional edge from the act node back to the
    agent. The language model is an oracle from history to decision; the act
    node is a function from the requested calls to the messages it returns. */
module GraphLoop {
  import opened Messages

  /** What the language model answers for a history: an assistant message, or the text of what it raised. */
  datatype Decision = Answer(content: string, toolCalls: seq<ToolCall>) | OracleFailed(error: string)

  type Oracle = seq<Message> -> Decision

  /** The act node's behaviour: the messages it returns for the requested calls. */
  type Act = seq<ToolCall> -> seq<Message>

  /** The conditional edge out of the agent node: to the act node, or to END. */
  datatype Route = ToAct | ToEnd

  /** `should_continue`: go on to the act node exactly when the last message is
      an assistant message with a non-empty tool-call list. */
  function ShouldContinue(state: seq<Message>): (r: Route)
    requires |state| > 0
    ensures r == ToAct <==> Last(state).Assistant? && Last(state).toolCalls != []
    ensures r == ToEnd <==> !RequestsTools(Last(state))
  {
    if RequestsTools(Last(state)) then ToAct else ToEnd
  }

  /** The state snapshots a run goes through (the input first, then one per
      node executed) and, when the run stopped by raising, the error text. */
  datatype Trace = Trace(snapshots: seq<seq<Message>>, failure: Option<string>)

  /** Error text when the step budget is used up before the oracle answers without tool calls. */
  const StepLimitError: string := "step limit reached"

  /** The snapshots after `state`: agent, then (act, agent)* until the router says END.
      `fuel` bounds the number of agent steps. */
  function Loop(oracle: Oracle, act: Act, state: seq<Message>, fuel: nat): (t: Trace)
    decreases fuel
  {
    if fuel == 0 then Trace([], Some(StepLimitError))
    else match oracle(state)
      case OracleFailed(e) => Trace([], Some(e))
      case Answer(content, calls) =>
        var decided := state + [Assistant(content, calls)];
        if ShouldContinue(decided) == ToEnd then Trace([decided], None)
        else
          var acted := decided + act(calls);
          var rest := Loop(oracle, act, acted, fuel - 1);
          Trace([decided, acted] + rest.snapshots, rest.failure)
  }

  /** A whole run from an input state, as a stream of state values. */
  function Run(oracle: Oracle, act: Act, input: seq<Message>, fuel: nat): (t: Trace)
    ensures |t.snapshots| > 0 && t.snapshots[0] == input
  {
    var rest := Loop(oracle, act, input, fuel);
    Trace([input] + rest.snapshots, rest.failure)
  }

  /** The assistant message the agent node appends for an answer. */
  function Decided(d: Decision): Message
    requires d.Answer?
  {
    Assistant(d.content, d.toolCalls)
  }

  /** Step `i` of a run takes `before` to `after`: even steps are agent steps
      (append the oracle's answer to the history it was shown), odd steps are
      act steps, taken only when the router chose the act node, appending the
      act node's results for the last message's calls. */
  ghost predicate Step(oracle: Oracle, act: Act, i: nat, before: seq<Message>, after: seq<Message>)
  {
    if i % 2 == 0 then
      oracle(before).Answer? && after == before + [Decided(oracle(before))]
    else
      |before| > 0 && ShouldContinue(before) == ToAct && after == before + act(Last(before).toolCalls)
  }

  /** Consecutive snapshots are related by alternating agent and act steps, starting with the agent. */
  ghost predicate Alternates(oracle: Oracle, act: Act, snaps: seq<seq<Message>>)
  {
    forall i | 0 <= i < |snaps| - 1 :: Step(oracle, act, i, snaps[i], snaps[i + 1])
  }

  lemma {:induction false} LoopAlternates(oracle: Oracle, act: Act, state: seq<Message>, fuel: nat)
    ensures Alternates(oracle, act, [state] + Loop(oracle, act, state, fuel).snapshots)
    decreases fuel
  {
    if fuel > 0 && oracle(state).Answer? {
      var calls := oracle(state).toolCalls;
      var decided := state + [Assistant(oracle(state).content, calls)];
      if ShouldContinue(decided) == ToAct {
        var acted := decided + act(calls);
        var rest := Loop(oracle, act, acted, fuel - 1).snapshots;
        LoopAlternates(oracle, act, acted, fuel - 1);
        var snaps := [state] + ([decided, acted] + rest);
        var tail := [acted] + rest;
        assert snaps == [state, decided] + tail;
        forall i | 0 <= i < |snaps| - 1
          ensures Step(oracle, act, i, snaps[i], snaps[i + 1])
        {
          if i >= 2 {
            assert snaps[i] == tail[i - 2] && snaps[i + 1] == tail[i - 1];
            assert Step(oracle, act, i - 2, tail[i - 2], tail[i - 1]);
          }
        }
      }
    }
  }

  /** The run enters at the agent node and then alternates agent and act steps. */
  lemma RunAlternates(oracle: Oracle, act: Act, input: seq<Message>, fuel: nat)
    ensures Alternates(oracle, act, Run(oracle, act, input, fuel).snapshots)
  {
    LoopAlternates(oracle, act, input, fuel);
  }

  /** Every snapshot of a run extends every earlier one: messages are only ever appended. */
  lemma {:induction false} RunIsAppendOnly(oracle: Oracle, act: Act, input: seq<Message>, fuel: nat, i: nat, j: nat)
    requires i <= j < |Run(oracle, act, input, fuel).snapshots|
    ensures Run(oracle, act, input, fuel).snapshots[i] <= Run(oracle, act, input, fuel).snapshots[j]
    decreases j - i
  {
    var snaps := Run(oracle, act, input, fuel).snapshots;
    if i < j {
      RunAlternates(oracle, act, input, fuel);
      RunIsAppendOnly(oracle, act, input, fuel, i + 1, j);
      assert Step(oracle, act, i, snaps[i], snaps[i + 1]);
    }
  }

  /** A run from a non-empty input never reaches an empty state. */
  lemma RunSnapshotsNonEmpty(oracle: Oracle, act: Act, input: seq<Message>, fuel: nat)
    requires |input| > 0
    ensures forall k | 0 <= k < |Run(oracle, act, input, fuel).snapshots| :: |Run(oracle, act, input, fuel).snapshots[k]| > 0
  {
    var snaps := Run(oracle, act, input, fuel).snapshots;
    forall k | 0 <= k < |snaps|
      ensures |snaps[k]| > 0
    {
      RunIsAppendOnly(oracle, act, input, fuel, 0, k);
    }
  }

  /** The history shown to the oracle at agent step `k` (counting from 0), provided
      every earlier agent step answered with tool calls; None otherwise. */
  function History(oracle: Oracle, act: Act, state: seq<Message>, k: nat): Option<seq<Message>>
    decreases k
  {
    if k == 0 then Some(state)
    else match oracle(state)
      case OracleFailed(_) => None
      case Answer(content, calls) =>
        if calls == [] then None
        else History(oracle, act, state + [Assistant(content, calls)] + act(calls), k - 1)
  }

  /** Termination: if the oracle's answer at agent step `k` has no tool calls and
      the budget allows `k + 1` agent steps, the loop ends normally right after that
      step, having gone through `2k + 1` snapshots, and the last message is that answer. */
  lemma {:induction false} StopsAtFirstPlainAnswer(oracle: Oracle, act: Act, state: seq<Message>, k: nat, fuel: nat)
    requires History(oracle, act, state, k).Some?
    requires oracle(History(oracle, act, state, k).value).Answer?
    requires oracle(History(oracle, act, state, k).value).toolCalls == []
    requires k < fuel
    ensures Loop(oracle, act, state, fuel).failure == None
    ensures |Loop(oracle, act, state, fuel).snapshots| == 2 * k + 1
    ensures Last(Loop(oracle, act, state, fuel).snapshots) ==
              History(oracle, act, state, k).value + [Decided(oracle(History(oracle, act, state, k).value))]
    decreases k
  {
    if k > 0 {
      var d := oracle(state);
      var acted := state + [Assistant(d.content, d.toolCalls)] + act(d.toolCalls);
      StopsAtFirstPlainAnswer(oracle, act, acted, k - 1, fuel - 1);
    }
  }

  /** The converse: a loop that ends normally ends on an agent step whose answer has
      no tool calls, within the budget, and that answer is the last message. */
  lemma {:induction false} NormalEndIsPlainAnswer(oracle: Oracle, act: Act, state: seq<Message>, fuel: nat)
    requires Loop(oracle, act, state, fuel).failure == None
    ensures var t := Loop(oracle, act, state, fuel);
      && |t.snapshots| % 2 == 1
      && |t.snapshots| / 2 < fuel
      && History(oracle, act, state, |t.snapshots| / 2).Some?
      && var h := History(oracle, act, state, |t.snapshots| / 2).value;
         && oracle(h).Answer? && oracle(h).toolCalls == []
         && Last(t.snapshots) == h + [Decided(oracle(h))]
         && IsFinalAnswer(Last(Last(t.snapshots)))
    decreases fuel
  {
    var d := oracle(state);
    var decided := state + [Assistant(d.content, d.toolCalls)];
    if ShouldContinue(decided) == ToAct {
      var acted := decided + act(d.toolCalls);
      NormalEndIsPlainAnswer(oracle, act, acted, fuel - 1);
      var n := |Loop(oracle, act, acted, fuel - 1).snapshots|;
      assert |Loop(oracle, act, state, fuel).snapshots| / 2 == n / 2 + 1;
    }
  }

  /** A run that ends normally ends with the oracle's tool-call-free answer as its last message. */
  lemma RunEndsWithPlainAnswer(oracle: Oracle, act: Act, input: seq<Message>, fuel: nat)
    requires Run(oracle, act, input, fuel).failure == None
    ensures |Last(Run(oracle, act, input, fuel).snapshots)| > 0
    ensures IsFinalAnswer(Last(Last(Run(oracle, act, input, fuel).snapshots)))
  {
    NormalEndIsPlainAnswer(oracle, act, input, fuel);
    var rest := Loop(oracle, act, input, fuel).snapshots;
    assert Last(Run(oracle, act, input, fuel).snapshots) == Last(rest);
  }

  /** Why a loop fails: either the oracle raised on the state the loop had reached, within
      the budget, and that is the error; or the budget ran out, after `fuel` full agent
      and act rounds, with `StepLimitError`. */
  lemma {:induction false} LoopFailureCause(oracle: Oracle, act: Act, state: seq<Message>, fuel: nat)
    requires Loop(oracle, act, state, fuel).failure.Some?
    ensures var t := Loop(oracle, act, state, fuel);
      var reached := Last([state] + t.snapshots);
      && |t.snapshots| % 2 == 0
      && ((|t.snapshots| / 2 < fuel && oracle(reached) == OracleFailed(t.failure.value))
          || (|t.snapshots| / 2 == fuel && t.failure.value == StepLimitError))
    decreases fuel
  {
    if fuel > 0 && oracle(state).Answer? {
      var d := oracle(state);
      var decided := state + [Assistant(d.content, d.toolCalls)];
      var acted := decided + act(d.toolCalls);
      LoopFailureCause(oracle, act, acted, fuel - 1);
      var rest := Loop(oracle, act, acted, fuel - 1).snapshots;
      assert Last([state] + ([decided, acted] + rest)) == Last([acted] + rest);
    }
  }

  /** A run fails with error `e` exactly for one of two reasons: the oracle raised `e` on
      the last state the run reached, before the budget was used up; or the budget of
      `fuel` agent steps was used up and `e` is `StepLimitError`. */
  lemma RunFailureCause(oracle: Oracle, act: Act, input: seq<Message>, fuel: nat)
    ensures var t := Run(oracle, act, input, fuel);
      t.failure.Some? ==>
      && |t.snapshots| % 2 == 1
      && ((|t.snapshots| / 2 < fuel && oracle(Last(t.snapshots)) == OracleFailed(t.failure.value))
          || (|t.snapshots| / 2 == fuel && t.failure.value == StepLimitError))
  {
    if Loop(oracle, act, input, fuel).failure.Some? {
      LoopFailureCause(oracle, act, input, fuel);
    }
  }

  /** The graph's nodes, as the source wires them. */
  datatype Node = AgentNode | ActNode | EndNode

  /** The compiled graph run as a state machine: entry at the agent node; after the
      agent, the router picks the act node or END; after the act node, back to the
      agent. Each node's output is appended to the state and the new state is emitted. */
  method RunGraph(oracle: Oracle, act: Act, input: seq<Message>, fuel: nat)
    returns (snapshots: seq<seq<Message>>, failure: Option<string>)
    ensures Trace(snapshots, failure) == Run(oracle, act, input, fuel)
    ensures failure == None ==> |Last(snapshots)| > 0 && IsFinalAnswer(Last(Last(snapshots)))
  {
    var state := input;
    snapshots := [input];
    failure := None;
    var node := AgentNode;
    var steps := fuel;
    while node != EndNode
      invariant |snapshots| > 0 && Last(snapshots) == state
      invariant node == AgentNode ==> (
        && failure == None
        && Run(oracle, act, input, fuel) ==
             Trace(snapshots + Loop(oracle, act, state, steps).snapshots, Loop(oracle, act, state, steps).failure))
      invariant node == ActNode ==> (
        && failure == None && steps > 0 && |state| > 0 && RequestsTools(Last(state))
        && var acted := state + act(Last(state).toolCalls);
           Run(oracle, act, input, fuel) ==
             Trace(snapshots + [acted] + Loop(oracle, act, acted, steps - 1).snapshots,
                   Loop(oracle, act, acted, steps - 1).failure))
      invariant node == EndNode ==> Run(oracle, act, input, fuel) == Trace(snapshots, failure)
      decreases if node == AgentNode then 2 * steps + 2 else if node == ActNode then 2 * steps + 1 else 0
    {
      if node == AgentNode {
        if steps == 0 {
          failure := Some(StepLimitError);
          node := EndNode;
        } else {
          match oracle(state)
          case OracleFailed(e) =>
            failure := Some(e);
            node := EndNode;
          case Answer(content, calls) =>
            state := state + [Assistant(content, calls)];
            snapshots := snapshots + [state];
            node := if ShouldContinue(state) == ToAct then ActNode else EndNode;
        }
      } else {
        state := state + act(Last(state).toolCalls);
        snapshots := snapshots + [state];
        steps := steps - 1;
        node := AgentNode;
      }
    }
    if failure == None {
      RunEndsWithPlainAnswer(oracle, act, input, fuel);
    }
  }
}
