/** The execution-stream adapter of `/chat/stream`: it turns the supervisor's
    state snapshots into server-sent events, classifying each snapshot by its
    last message, after a leading `new_thread` event; a failure while driving
    the graph ends the stream with a single `error` event. */
module Stream {
  import opened Messages
  import opened GraphLoop

  /** The events the stream sends; all but `error` carry the thread id. The byte-level
      `event: X\ndata: <json>\n\n` framing is abstracted away. */
  datatype Event =
    | NewThread(threadId: string)
    | SupervisorPlan(threadId: string, team: string, query: ArgValue)
    | FinalAnswer(threadId: string, content: string)
    | TeamReport(threadId: string, content: string)
    | UnknownStep(threadId: string, content: string)
    | StreamError(error: string, message: string)

  const ErrorMessage: string := "An error occurred during agent execution."

  /** The `query` a plan reports when the first call has none. */
  const NoQuery: ArgValue := Text("N/A")

  /** `str(IndexError)` for `[][-1]`. */
  const EmptyStateError: string := "list index out of range"

  /** What one snapshot makes the generator do: send an event, skip it, or raise. */
  datatype StepOutcome = Emit(event: Event) | Skip | Fail(error: string)

  /** The case split on the snapshot's last message. */
  function ClassifyStep(threadId: string, snapshot: seq<Message>): (o: StepOutcome)
    ensures |snapshot| == 0 <==> o.Fail?
    ensures |snapshot| > 0 && Last(snapshot).Human? <==> o.Skip?
    ensures o.Emit? ==> !o.event.NewThread? && !o.event.StreamError? && o.event.threadId == threadId
    ensures |snapshot| > 0 && RequestsTools(Last(snapshot)) ==>
              o == Emit(SupervisorPlan(threadId, Last(snapshot).toolCalls[0].name,
                                       GetOr(Last(snapshot).toolCalls[0].args, "query", NoQuery)))
    ensures |snapshot| > 0 && IsFinalAnswer(Last(snapshot)) ==> o == Emit(FinalAnswer(threadId, Last(snapshot).content))
    ensures |snapshot| > 0 && Last(snapshot).ToolResult? ==> o == Emit(TeamReport(threadId, Last(snapshot).content))
    ensures |snapshot| > 0 && Last(snapshot).OtherMessage? ==> o == Emit(UnknownStep(threadId, Last(snapshot).repr))
  {
    if |snapshot| == 0 then Fail(EmptyStateError)
    else
      var last := Last(snapshot);
      match last
      case Assistant(content, calls) =>
        if calls != [] then Emit(SupervisorPlan(threadId, calls[0].name, GetOr(calls[0].args, "query", NoQuery)))
        else Emit(FinalAnswer(threadId, content))
      case ToolResult(_, content) => Emit(TeamReport(threadId, content))
      case OtherMessage(repr) => Emit(UnknownStep(threadId, repr))
      case Human(_) => Skip
  }

  /** The events after `new_thread` for the remaining snapshots. An error event can only
      be the last one, and every other event carries the thread id. */
  function StepEvents(threadId: string, snaps: seq<seq<Message>>, failure: Option<string>): (es: seq<Event>)
    ensures |es| <= |snaps| + 1
    ensures forall i | 0 <= i < |es| :: !es[i].NewThread?
    ensures forall i | 0 <= i < |es| :: es[i].StreamError? ==> i == |es| - 1
    ensures forall i | 0 <= i < |es| :: !es[i].StreamError? ==> es[i].threadId == threadId
    decreases |snaps|
  {
    if snaps == [] then
      if failure.Some? then [StreamError(failure.value, ErrorMessage)] else []
    else match ClassifyStep(threadId, snaps[0])
      case Emit(e) => [e] + StepEvents(threadId, snaps[1..], failure)
      case Skip => StepEvents(threadId, snaps[1..], failure)
      case Fail(err) => [StreamError(err, ErrorMessage)]
  }

  /** Everything `stream_generator` yields for a run. */
  function StreamEvents(threadId: string, t: Trace): (es: seq<Event>)
    ensures |es| > 0 && es[0] == NewThread(threadId)
    ensures forall i | 1 <= i < |es| :: !es[i].NewThread?
  {
    [NewThread(threadId)] + StepEvents(threadId, t.snapshots, t.failure)
  }

  /** Snapshots are reported one after another: the events for a run split at any point
      are the events for the first part (which raises nothing when it has no empty state)
      followed by the events for the rest. */
  lemma {:induction false} StepEventsAppend(threadId: string, first: seq<seq<Message>>, rest: seq<seq<Message>>,
                                            failure: Option<string>)
    requires forall k | 0 <= k < |first| :: |first[k]| > 0
    ensures StepEvents(threadId, first + rest, failure) == StepEvents(threadId, first, None) + StepEvents(threadId, rest, failure)
    decreases |first|
  {
    if first != [] {
      assert (first + rest)[0] == first[0] && (first + rest)[1..] == first[1..] + rest;
      StepEventsAppend(threadId, first[1..], rest, failure);
      var o := ClassifyStep(threadId, first[0]);
      if o.Emit? {
        assert StepEvents(threadId, first + rest, failure) == [o.event] + StepEvents(threadId, first[1..] + rest, failure);
        assert StepEvents(threadId, first, None) == [o.event] + StepEvents(threadId, first[1..], None);
        assert [o.event] + (StepEvents(threadId, first[1..], None) + StepEvents(threadId, rest, failure)) ==
               ([o.event] + StepEvents(threadId, first[1..], None)) + StepEvents(threadId, rest, failure);
      } else {
        assert o.Skip?;
        assert StepEvents(threadId, first + rest, failure) == StepEvents(threadId, first[1..] + rest, failure);
      }
    } else {
      assert first + rest == rest;
    }
  }

  /** One snapshot gives exactly its classification: one event, or none for a human message. */
  lemma StepEventsOfOne(threadId: string, snapshot: seq<Message>)
    requires |snapshot| > 0
    ensures StepEvents(threadId, [snapshot], None) ==
              if Last(snapshot).Human? then [] else [ClassifyStep(threadId, snapshot).event]
  {
    assert [snapshot][1..] == [];
  }

  /** Together: appending one snapshot to a run appends exactly that snapshot's event. */
  lemma StepEventsSnoc(threadId: string, snaps: seq<seq<Message>>, snapshot: seq<Message>)
    requires forall k | 0 <= k < |snaps| :: |snaps[k]| > 0
    requires |snapshot| > 0
    ensures StepEvents(threadId, snaps + [snapshot], None) ==
              StepEvents(threadId, snaps, None) +
              (if Last(snapshot).Human? then [] else [ClassifyStep(threadId, snapshot).event])
  {
    StepEventsAppend(threadId, snaps, [snapshot], None);
    StepEventsOfOne(threadId, snapshot);
  }

  /** At most one error event is sent, and nothing follows it. */
  lemma ErrorIsTerminal(threadId: string, t: Trace, i: nat)
    requires i < |StreamEvents(threadId, t)| && StreamEvents(threadId, t)[i].StreamError?
    ensures i == |StreamEvents(threadId, t)| - 1
    ensures forall j | 0 <= j < |StreamEvents(threadId, t)| && j != i :: !StreamEvents(threadId, t)[j].StreamError?
  {
    var es := StreamEvents(threadId, t);
    var rest := StepEvents(threadId, t.snapshots, t.failure);
    assert es[i] == rest[i - 1];
    forall j | 0 <= j < |es| && j != i
      ensures !es[j].StreamError?
    {
      if j > 0 {
        assert es[j] == rest[j - 1];
      }
    }
  }

  /** When every snapshot has a last message, the stream ends with an error exactly when
      the run raised, and that error event carries what the run raised. */
  lemma {:induction false} ErrorReportsFailure(threadId: string, snaps: seq<seq<Message>>, failure: Option<string>)
    requires forall k | 0 <= k < |snaps| :: |snaps[k]| > 0
    ensures var es := StepEvents(threadId, snaps, failure);
      && (failure.Some? <==> (|es| > 0 && Last(es).StreamError?))
      && (failure.Some? ==> Last(es) == StreamError(failure.value, ErrorMessage))
    decreases |snaps|
  {
    if snaps != [] {
      ErrorReportsFailure(threadId, snaps[1..], failure);
      var rest := StepEvents(threadId, snaps[1..], failure);
      if ClassifyStep(threadId, snaps[0]).Emit? {
        var es := StepEvents(threadId, snaps, failure);
        assert es == [ClassifyStep(threadId, snaps[0]).event] + rest;
        if |rest| > 0 {
          assert Last(es) == Last(rest);
        }
      }
    }
  }

  /** A run that ends normally, with a tool-call-free answer as the last message of its
      last snapshot, makes the stream end with `final_answer` carrying that answer. */
  lemma {:induction false} NormalRunEndsWithFinalAnswer(threadId: string, snaps: seq<seq<Message>>)
    requires |snaps| > 0 && forall k | 0 <= k < |snaps| :: |snaps[k]| > 0
    requires IsFinalAnswer(Last(Last(snaps)))
    ensures |StepEvents(threadId, snaps, None)| > 0
    ensures Last(StepEvents(threadId, snaps, None)) == FinalAnswer(threadId, Last(Last(snaps)).content)
    decreases |snaps|
  {
    if |snaps| > 1 {
      NormalRunEndsWithFinalAnswer(threadId, snaps[1..]);
      var es := StepEvents(threadId, snaps, None);
      var rest := StepEvents(threadId, snaps[1..], None);
      if ClassifyStep(threadId, snaps[0]).Emit? {
        assert es == [ClassifyStep(threadId, snaps[0]).event] + rest;
        assert Last(es) == Last(rest);
      }
    }
  }

  /** How a run ends is how its stream closes: a normal end on a final answer closes
      with `final_answer` and no error anywhere; a failure closes with `error` carrying it. */
  lemma StreamClosesAsRunEnds(threadId: string, t: Trace)
    requires |t.snapshots| > 0 && forall k | 0 <= k < |t.snapshots| :: |t.snapshots[k]| > 0
    requires t.failure == None ==> IsFinalAnswer(Last(Last(t.snapshots)))
    ensures var es := StreamEvents(threadId, t);
      && (t.failure == None ==> Last(es) == FinalAnswer(threadId, Last(Last(t.snapshots)).content))
      && (t.failure == None ==> forall i | 0 <= i < |es| :: !es[i].StreamError?)
      && (t.failure.Some? ==> Last(es) == StreamError(t.failure.value, ErrorMessage))
  {
    var es := StreamEvents(threadId, t);
    var steps := StepEvents(threadId, t.snapshots, t.failure);
    ErrorReportsFailure(threadId, t.snapshots, t.failure);
    if t.failure == None {
      NormalRunEndsWithFinalAnswer(threadId, t.snapshots);
      forall i | 0 <= i < |es|
        ensures !es[i].StreamError?
      {
        if i > 0 {
          assert es[i] == steps[i - 1];
        }
      }
    }
  }

  /** `stream_generator`: send `new_thread`, then walk the snapshots, classifying each
      one's last message; anything raised (by the run, or by an empty state) is
      caught once, reported as a single `error` event, and ends the stream. */
  method StreamGenerator(threadId: string, trace: Trace) returns (events: seq<Event>)
    ensures events == StreamEvents(threadId, trace)
    ensures events[0] == NewThread(threadId)
    ensures forall i | 0 <= i < |events| :: events[i].StreamError? ==> i == |events| - 1
  {
    events := [NewThread(threadId)];
    var snaps := trace.snapshots;
    var raised: Option<string> := None;
    var i := 0;
    while i < |snaps| && raised == None
      invariant 0 <= i <= |snaps|
      invariant raised == None ==> events + StepEvents(threadId, snaps[i..], trace.failure) == StreamEvents(threadId, trace)
      invariant raised.Some? ==> events + [StreamError(raised.value, ErrorMessage)] == StreamEvents(threadId, trace)
    {
      var snapshot := snaps[i];
      assert snaps[i..][1..] == snaps[i + 1..];
      if |snapshot| == 0 {
        raised := Some(EmptyStateError);
      } else {
        var last := snapshot[|snapshot| - 1];
        if last.Assistant? {
          if last.toolCalls != [] {
            var first := last.toolCalls[0];
            var query := if "query" in first.args then first.args["query"] else NoQuery;
            events := events + [SupervisorPlan(threadId, first.name, query)];
          } else {
            events := events + [FinalAnswer(threadId, last.content)];
          }
        } else if last.ToolResult? {
          events := events + [TeamReport(threadId, last.content)];
        } else if !last.Human? {
          events := events + [UnknownStep(threadId, last.repr)];
        }
      }
      i := i + 1;
    }
    if raised == None && trace.failure.Some? {
      raised := trace.failure;
    }
    if raised.Some? {
      events := events + [StreamError(raised.value, ErrorMessage)];
    }
  }
}
