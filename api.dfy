/** The two chat endpoints around the supervisor graph: thread-id defaulting, the
    per-thread conversation store, `/chat/stream` (events) and `/chat/invoke`
    (final answer only). */
module Api {
  import opened Messages
  import opened GraphLoop
  import opened Teams
  import opened Stream

  /** The request body: the query and an optional thread id. */
  datatype ChatRequest = ChatRequest(query: string, threadId: Option<string>)

  /** `request.thread_id or str(uuid.uuid4())`: a missing or empty id is replaced by a
      freshly generated one, supplied here as `generated`. */
  function ThreadIdFor(request: ChatRequest, generated: string): (threadId: string)
    ensures request.threadId.Some? && request.threadId.value != "" ==> threadId == request.threadId.value
    ensures request.threadId.None? || request.threadId.value == "" ==> threadId == generated
  {
    match request.threadId
    case Some(id) => if id != "" then id else generated
    case None => generated
  }

  /** The checkpointer, as a map from thread id to the thread's stored messages. */
  type Sessions = map<string, seq<Message>>

  /** The state a turn starts from: the thread's stored messages (none for a new
      thread) followed by the new human message. */
  function Resume(sessions: Sessions, threadId: string, query: string): (input: seq<Message>)
    ensures |input| > 0 && Last(input) == Human(query)
    ensures threadId in sessions ==> input[..|input| - 1] == sessions[threadId]
    ensures threadId !in sessions ==> input == [Human(query)]
  {
    (if threadId in sessions then sessions[threadId] else []) + [Human(query)]
  }

  /** One supervisor run for a turn of a thread. */
  function Turn(sup: Supervisor, sessions: Sessions, threadId: string, query: string): Trace
  {
    SupervisorRun(sup, Resume(sessions, threadId, query))
  }

  /** The store after a turn: the thread holds the last state the run reached; other threads are untouched. */
  function Checkpoint(sessions: Sessions, threadId: string, t: Trace): (saved: Sessions)
    requires |t.snapshots| > 0
    ensures threadId in saved && saved[threadId] == Last(t.snapshots)
    ensures forall other | other != threadId :: (other in saved <==> other in sessions)
    ensures forall other | other != threadId && other in sessions :: saved[other] == sessions[other]
  {
    sessions[threadId := Last(t.snapshots)]
  }

  /** `/chat/stream`: pick the thread id, run the supervisor graph from the thread's
      stored state plus the query, stream its snapshots as events, store the result. */
  method ChatStream(sup: Supervisor, sessions: Sessions, request: ChatRequest, generated: string)
    returns (events: seq<Event>, saved: Sessions)
    ensures var threadId := ThreadIdFor(request, generated);
      var t := Turn(sup, sessions, threadId, request.query);
      && events == StreamEvents(threadId, t)
      && saved == Checkpoint(sessions, threadId, t)
    ensures events[0] == NewThread(ThreadIdFor(request, generated))
    ensures forall i | 0 <= i < |events| :: !events[i].StreamError? ==> events[i].threadId == ThreadIdFor(request, generated)
  {
    var threadId := ThreadIdFor(request, generated);
    var input := Resume(sessions, threadId, request.query);
    var snapshots, failure := RunGraph(sup.oracle, SupervisorAct(sup), input, sup.fuel);
    events := StreamGenerator(threadId, Trace(snapshots, failure));
    saved := sessions[threadId := Last(snapshots)];
    ghost var steps := StepEvents(threadId, snapshots, failure);
    assert forall i | 1 <= i < |events| :: events[i] == steps[i - 1];
  }

  /** The body `/chat/invoke` returns. */
  datatype InvokeResponse = InvokeResponse(response: string, threadId: string)

  /** `/chat/invoke`: the same run; the answer is the content of the final state's last
      message. What the run raises propagates to the caller. */
  function ChatInvoke(sup: Supervisor, sessions: Sessions, request: ChatRequest, generated: string)
    : (r: (Result<InvokeResponse>, Sessions))
    ensures var threadId := ThreadIdFor(request, generated);
      var t := Turn(sup, sessions, threadId, request.query);
      && r.1 == Checkpoint(sessions, threadId, t)
      && (r.0.Raised? <==> t.failure.Some?)
      && (r.0.Raised? ==> r.0.error == t.failure.value)
      && (r.0.Ok? ==> r.0.value.threadId == threadId)
      && (r.0.Ok? ==> |Last(t.snapshots)| > 0 && Last(Last(t.snapshots)) == Assistant(r.0.value.response, []))
  {
    var threadId := ThreadIdFor(request, generated);
    var t := Turn(sup, sessions, threadId, request.query);
    var saved := Checkpoint(sessions, threadId, t);
    if t.failure.Some? then (Raised(t.failure.value), saved)
    else
      RunEndsWithPlainAnswer(sup.oracle, SupervisorAct(sup), Resume(sessions, threadId, request.query), sup.fuel);
      (Ok(InvokeResponse(Last(Last(t.snapshots)).content, threadId)), saved)
  }

  /** Both endpoints tell the same story for the same turn: `/chat/invoke` answers exactly
      what the stream's closing `final_answer` carries, and fails exactly when the stream
      closes with an `error` event carrying the same text. */
  lemma InvokeAgreesWithStream(sup: Supervisor, sessions: Sessions, request: ChatRequest, generated: string)
    ensures var threadId := ThreadIdFor(request, generated);
      var es := StreamEvents(threadId, Turn(sup, sessions, threadId, request.query));
      var r := ChatInvoke(sup, sessions, request, generated).0;
      && (r.Ok? ==> Last(es) == FinalAnswer(threadId, r.value.response))
      && (r.Ok? ==> forall i | 0 <= i < |es| :: !es[i].StreamError?)
      && (r.Raised? ==> Last(es) == StreamError(r.error, ErrorMessage))
  {
    var threadId := ThreadIdFor(request, generated);
    var input := Resume(sessions, threadId, request.query);
    var t := Turn(sup, sessions, threadId, request.query);
    RunSnapshotsNonEmpty(sup.oracle, SupervisorAct(sup), input, sup.fuel);
    if t.failure == None {
      RunEndsWithPlainAnswer(sup.oracle, SupervisorAct(sup), input, sup.fuel);
    }
    StreamClosesAsRunEnds(threadId, t);
  }

  /** Cross-request memory: after a turn on a thread, the next turn on the same thread
      starts from everything the first turn started from (its query included), then
      what the first run appended, then the new query; other threads are not touched. */
  lemma NextTurnSeesPreviousTurn(sup: Supervisor, sessions: Sessions, threadId: string, first: string, second: string)
    ensures var t := Turn(sup, sessions, threadId, first);
      var saved := Checkpoint(sessions, threadId, t);
      && Resume(saved, threadId, second) == Last(t.snapshots) + [Human(second)]
      && Resume(sessions, threadId, first) <= Resume(saved, threadId, second)
      && forall other | other != threadId && other in sessions :: other in saved && saved[other] == sessions[other]
  {
    var input := Resume(sessions, threadId, first);
    var t := Turn(sup, sessions, threadId, first);
    RunIsAppendOnly(sup.oracle, SupervisorAct(sup), input, sup.fuel, 0, |t.snapshots| - 1);
  }
}
