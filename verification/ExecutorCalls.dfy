/**
 * Calls to the executor (src/executor.rs, ExecutorClientInner::request, the reader thread and the
 * executor's request loop): every call in flight is waited for, completes at most once, and completes
 * with what the executor computed for it.
 *
 * The two queues and the executor between them are one pipeline. `Flight` lists the request ids in it,
 * the oldest first: responses, then the request being worked on, then queued requests. Executor steps
 * leave it unchanged.
 */
module ExecutorCalls {
  import opened Common
  import opened ExecutorProtocol

  function RequestIds(q: seq<Request>): seq<ReqId> {
    if q == [] then [] else [q[0].id] + RequestIds(q[1..])
  }

  function AnswerIds(q: seq<Response>): seq<ReqId> {
    if q == [] then []
    else (if q[0].Answer? then [q[0].id] else []) + AnswerIds(q[1..])
  }

  function WorkIds(w: Work): seq<ReqId> {
    match w
    case NoWork => []
    case Taken(r) => [r.id]
    case Done(id, _) => [id]
  }

  function Flight(s: State): seq<ReqId> {
    AnswerIds(s.responses) + WorkIds(s.working) + RequestIds(s.requests)
  }

  predicate NoDuplicates(ids: seq<ReqId>) {
    forall i, j | 0 <= i < j < |ids| :: ids[i] != ids[j]
  }

  /** A completion is the executor's own outcome for that id, or the channel closed. */
  predicate Genuine(s: State, id: ReqId, c: Completion) {
    match c
    case Answered(outcome) => id in s.computed && s.computed[id] == outcome
    case ChannelClosed => !s.readerRunning
  }

  predicate Unused(s: State, id: ReqId) {
    id !in s.pending && id !in s.mail && id !in s.computed && id !in s.completed
  }

  /** The waiter of an unanswered call is registered, and its answer is neither mailed nor delivered. */
  predicate Awaited(s: State, id: ReqId, t: TaskId) {
    id in s.pending && s.pending[id] == t && id !in s.mail && id !in s.completed
  }

  predicate Mailed(s: State, id: ReqId) {
    id !in s.pending && id in s.mail && Genuine(s, id, s.mail[id]) && id !in s.completed
  }

  /**
   * Where request `id` stands, by the phase of the call that made it; `f` is the pipeline. While the
   * reader runs, `id` is in the pipeline exactly when its call waits unanswered.
   */
  predicate IdOk(s: State, f: seq<ReqId>, id: ReqId) {
    if !(1 <= id < s.nextId) then
      Unused(s, id) && id !in f
    else
      && id in s.calledBy
      && var t := s.calledBy[id];
         var phase := if t in s.tasks then s.tasks[t].phase else Unregistering;
         if phase == Prepared(id) then
           Unused(s, id) && id !in f
         else if phase == Enlisted(id) then
           && (Awaited(s, id, t) || Mailed(s, id)) && id !in s.computed && id !in f
         else if phase == Waiting(id) then
           || (Awaited(s, id, t) && id in f)
           || (Mailed(s, id) && (s.readerRunning ==> id !in f))
         else
           && id !in s.pending && id !in s.mail
           && (s.readerRunning ==> id !in f)
           && (id in s.completed ==> Genuine(s, id, s.completed[id]))
  }

  /** A call carries only an id that it made. */
  predicate TaskOk(s: State, t: TaskId)
    requires t in s.tasks
  {
    && t < s.nextTask
    && (s.tasks[t].phase.Prepared? || s.tasks[t].phase.Enlisted? || s.tasks[t].phase.Waiting? ==>
          1 <= s.tasks[t].phase.id < s.nextId && Lookup(s.calledBy, s.tasks[t].phase.id) == Some(t))
  }

  ghost predicate BookOk(s: State, f: seq<ReqId>) {
    && 1 <= s.nextId
    && (forall t | t in s.tasks :: TaskOk(s, t))
    && (forall id :: IdOk(s, f, id))
  }

  /** What travels through the pipeline: requests not yet computed, and answers as computed. */
  ghost predicate PipelineOk(s: State, f: seq<ReqId>) {
    && f == Flight(s) && NoDuplicates(f)
    && (forall i | 0 <= i < |s.requests| :: s.requests[i].id !in s.computed)
    && (s.working.Taken? ==> s.working.request.id !in s.computed)
    && (s.working.Done? ==> Lookup(s.computed, s.working.id) == Some(s.working.outcome))
    && (forall i | 0 <= i < |s.responses| && s.responses[i].Answer? ::
          Lookup(s.computed, s.responses[i].id) == Some(s.responses[i].outcome))
  }

  /** A request under way is the one its call made. */
  ghost predicate RequestsOk(s: State) {
    && (forall i, t | 0 <= i < |s.requests| && t in s.tasks && s.tasks[t].phase == Waiting(s.requests[i].id) ::
          s.requests[i] == RequestOf(s, s.tasks[t]))
    && (forall t | s.working.Taken? && t in s.tasks && s.tasks[t].phase == Waiting(s.working.request.id) ::
          s.working.request == RequestOf(s, s.tasks[t]))
  }

  ghost predicate CallsOk(s: State) {
    BookOk(s, Flight(s)) && PipelineOk(s, Flight(s)) && RequestsOk(s)
  }

  // ---------------------------------------------------------------- the pipeline

  lemma {:induction false} RequestIdsAppend(q: seq<Request>, r: Request)
    ensures RequestIds(q + [r]) == RequestIds(q) + [r.id]
  {
    if q != [] {
      assert (q + [r])[1..] == q[1..] + [r];
      RequestIdsAppend(q[1..], r);
    }
  }

  lemma {:induction false} AnswerIdsAppend(q: seq<Response>, r: Response)
    ensures AnswerIds(q + [r]) == AnswerIds(q) + if r.Answer? then [r.id] else []
  {
    if q != [] {
      assert (q + [r])[1..] == q[1..] + [r];
      AnswerIdsAppend(q[1..], r);
    }
  }

  lemma {:induction false} RequestIdsMember(q: seq<Request>, i: nat)
    requires i < |q|
    ensures q[i].id in RequestIds(q)
  {
    if i > 0 {
      RequestIdsMember(q[1..], i - 1);
    }
  }

  /** Taking a request, answering it and reporting a connection leave the pipeline as it is. */
  lemma TakeKeepsFlight(s: State)
    requires CanTakeRequest(s)
    ensures Flight(TookRequest(s)) == Flight(s)
  {
    assert RequestIds(s.requests) == [s.requests[0].id] + RequestIds(s.requests[1..]);
  }

  lemma RespondKeepsFlight(s: State)
    requires CanSendResponse(s)
    ensures Flight(SentResponse(s)) == Flight(s)
  {
    AnswerIdsAppend(s.responses, Answer(s.working.id, s.working.outcome));
  }

  lemma AcceptKeepsFlight(s: State, token: Token)
    ensures Flight(Accepted(s, token)) == Flight(s)
  {
    AnswerIdsAppend(s.responses, Incoming(token));
  }

  /** Sending puts the id at the end of the pipeline. */
  lemma SendExtendsFlight(s: State, t: TaskId)
    requires CanSend(s, t)
    ensures Flight(Sent(s, t)) == Flight(s) + [s.tasks[t].phase.id]
  {
    RequestIdsAppend(s.requests, RequestOf(s, s.tasks[t]));
  }

  /** Reading an answer takes the id off the front. */
  lemma ReadShortensFlight(s: State)
    requires CanReadResponse(s)
    ensures s.responses[0].Answer? ==> Flight(s) == [s.responses[0].id] + Flight(ReadOne(s))
    ensures s.responses[0].Incoming? ==> Flight(ReadOne(s)) == Flight(s)
  {
    var s' := ReadOne(s);
    assert s'.responses == s.responses[1..] && s'.working == s.working && s'.requests == s.requests;
    AnswerIdsFront(s.responses);
    if s.responses[0].Answer? {
      FrontOfPipeline([s.responses[0].id], AnswerIds(s'.responses), WorkIds(s.working), RequestIds(s.requests));
    }
  }

  lemma AnswerIdsFront(q: seq<Response>)
    requires q != []
    ensures AnswerIds(q) == if q[0].Answer? then [q[0].id] + AnswerIds(q[1..]) else AnswerIds(q[1..])
  {
  }

  lemma FrontOfPipeline(x: seq<ReqId>, a: seq<ReqId>, b: seq<ReqId>, c: seq<ReqId>)
    ensures x + a + b + c == x + (a + b + c)
  {
  }

  // ---------------------------------------------------------------- every step keeps the book

  lemma RequestForwardBook(s: State, f: seq<ReqId>, c: SessionId, address: string, port: nat)
    requires BookOk(s, f) && CanRequestForward(s, c, address, port)
    ensures BookOk(RequestedForward(s, c, address, port), f)
  {
    var s' := RequestedForward(s, c, address, port);
    forall id ensures IdOk(s', f, id) {
      assert IdOk(s, f, id);
    }
  }

  lemma RequestOtherBook(s: State, f: seq<ReqId>, c: SessionId)
    requires BookOk(s, f) && CanRequestOther(s, c)
    ensures BookOk(RequestedOther(s, c), f)
  {
    var s' := RequestedOther(s, c);
    forall id ensures IdOk(s', f, id) {
      assert IdOk(s, f, id);
    }
  }

  lemma CancelHandleBook(s: State, f: seq<ReqId>, c: SessionId, key: ForwardKey)
    requires BookOk(s, f) && CanCancelHandle(s, c, key)
    ensures BookOk(CancelledHandle(s, c, key), f)
  {
    var s' := CancelledHandle(s, c, key);
    forall id ensures IdOk(s', f, id) {
      assert IdOk(s, f, id);
    }
  }

  lemma UnregisterBook(s: State, f: seq<ReqId>, t: TaskId)
    requires BookOk(s, f) && CanUnregister(s, t)
    ensures BookOk(Unregistered(s, t), f)
  {
    var s' := Unregistered(s, t);
    forall id ensures IdOk(s', f, id) {
      assert IdOk(s, f, id);
    }
  }

  lemma EnlistBook(s: State, f: seq<ReqId>, t: TaskId)
    requires BookOk(s, f) && CanEnlist(s, t)
    ensures BookOk(EnlistedCall(s, t), f)
  {
    var s' := EnlistedCall(s, t);
    forall id ensures IdOk(s', f, id) {
      assert IdOk(s, f, id);
    }
  }

  lemma SendBook(s: State, f: seq<ReqId>, t: TaskId)
    requires BookOk(s, f) && CanSend(s, t)
    ensures BookOk(Sent(s, t), f + [s.tasks[t].phase.id])
  {
    var s' := Sent(s, t);
    forall id ensures IdOk(s', f + [s.tasks[t].phase.id], id) {
      assert IdOk(s, f, id);
    }
  }

  lemma SendFailsBook(s: State, f: seq<ReqId>, t: TaskId)
    requires BookOk(s, f) && CanSend(s, t)
    ensures BookOk(SendFailed(s, t), f)
  {
    var s' := SendFailed(s, t);
    forall id ensures IdOk(s', f, id) {
      assert IdOk(s, f, id);
    }
  }

  lemma PerformBook(s: State, f: seq<ReqId>, outcome: Outcome)
    requires BookOk(s, f) && CanPerform(s, outcome)
    requires s.working.request.id in f && s.working.request.id !in s.computed
    ensures BookOk(Performed(s, outcome), f)
  {
    var s' := Performed(s, outcome);
    forall id ensures IdOk(s', f, id) {
      assert IdOk(s, f, id);
    }
  }

  lemma ReaderStopBook(s: State, f: seq<ReqId>)
    requires BookOk(s, f) && CanReaderStop(s)
    ensures BookOk(ReaderStopped(s), f)
  {
    var s' := ReaderStopped(s);
    forall id ensures IdOk(s', f, id) {
      assert IdOk(s, f, id);
    }
  }

  lemma RegisterBook(s: State, f: seq<ReqId>, t: TaskId)
    requires BookOk(s, f) && CanRegister(s, t)
    ensures BookOk(RegisteredForward(s, t), f)
  {
    var s' := RegisteredForward(s, t);
    forall id ensures IdOk(s', f, id) {
      assert IdOk(s, f, id);
    }
  }

  lemma CompleteBook(s: State, f: seq<ReqId>, t: TaskId)
    requires BookOk(s, f) && CanComplete(s, t)
    ensures BookOk(CompletedCall(s, t), f)
  {
    var s' := CompletedCall(s, t);
    forall id ensures IdOk(s', f, id) {
      assert IdOk(s, f, id);
    }
  }

  lemma StoreHandleBook(s: State, f: seq<ReqId>, t: TaskId)
    requires BookOk(s, f) && CanStoreHandle(s, t)
    ensures BookOk(StoredHandle(s, t), f)
  {
    var s' := StoredHandle(s, t);
    forall id ensures IdOk(s', f, id) {
      assert IdOk(s, f, id);
    }
  }

  /** Reading takes `f` to `g`. */
  lemma ReadBook(s: State, f: seq<ReqId>, g: seq<ReqId>)
    requires BookOk(s, f) && CanReadResponse(s)
    requires s.responses[0].Incoming? ==> g == f
    requires s.responses[0].Answer? ==>
               && f == [s.responses[0].id] + g && s.responses[0].id !in g
               && Lookup(s.computed, s.responses[0].id) == Some(s.responses[0].outcome)
    ensures BookOk(ReadOne(s), g)
  {
    var s' := ReadOne(s);
    forall id ensures IdOk(s', g, id) {
      assert IdOk(s, f, id);
      assert s.responses[0].Answer? ==> s.responses[0].id in f;
    }
  }

  /** Steps that touch nothing a call depends on. */
  lemma SameBook(s: State, s': State, f: seq<ReqId>)
    requires BookOk(s, f)
    requires s'.tasks == s.tasks && s'.pending == s.pending && s'.mail == s.mail && s'.readerRunning == s.readerRunning
    requires s'.nextId == s.nextId && s'.nextTask == s.nextTask && s'.calledBy == s.calledBy
    requires s'.computed == s.computed && s'.completed == s.completed
    ensures BookOk(s', f)
  {
    forall id ensures IdOk(s', f, id) {
      assert IdOk(s, f, id);
    }
    forall t | t in s'.tasks ensures TaskOk(s', t) {
      assert TaskOk(s, t);
    }
  }

  // ---------------------------------------------------------------- every step keeps the pipeline

  lemma SendPipeline(s: State, t: TaskId)
    requires BookOk(s, Flight(s)) && PipelineOk(s, Flight(s)) && CanSend(s, t)
    ensures PipelineOk(Sent(s, t), Flight(s) + [s.tasks[t].phase.id])
  {
    assert TaskOk(s, t) && IdOk(s, Flight(s), s.tasks[t].phase.id);
    NewIdExtendsPipeline(s, t);
  }

  lemma NewIdExtendsPipeline(s: State, t: TaskId)
    requires PipelineOk(s, Flight(s)) && CanSend(s, t)
    requires s.tasks[t].phase.id !in Flight(s) && s.tasks[t].phase.id !in s.computed
    ensures PipelineOk(Sent(s, t), Flight(s) + [s.tasks[t].phase.id])
  {
    SendExtendsFlight(s, t);
  }

  lemma TakePipeline(s: State)
    requires PipelineOk(s, Flight(s)) && CanTakeRequest(s)
    ensures PipelineOk(TookRequest(s), Flight(s))
  {
    TakeKeepsFlight(s);
  }

  lemma PerformPipeline(s: State, outcome: Outcome)
    requires PipelineOk(s, Flight(s)) && CanPerform(s, outcome)
    ensures PipelineOk(Performed(s, outcome), Flight(s))
    ensures s.working.request.id in Flight(s) && s.working.request.id !in s.computed
  {
    var a, q := AnswerIds(s.responses), RequestIds(s.requests);
    var id := s.working.request.id;
    assert Flight(s) == a + [id] + q;
    assert Flight(s)[|a|] == id;
    forall i | 0 <= i < |s.requests| ensures s.requests[i].id != id {
      RequestIdsMember(s.requests, i);
      assert exists j :: 0 <= j < |q| && q[j] == s.requests[i].id;
      var j :| 0 <= j < |q| && q[j] == s.requests[i].id;
      assert Flight(s)[|a| + 1 + j] == q[j];
    }
  }

  lemma RespondPipeline(s: State)
    requires PipelineOk(s, Flight(s)) && CanSendResponse(s)
    ensures PipelineOk(SentResponse(s), Flight(s))
  {
    RespondKeepsFlight(s);
  }

  lemma AcceptPipeline(s: State, token: Token)
    requires PipelineOk(s, Flight(s))
    ensures PipelineOk(Accepted(s, token), Flight(s))
  {
    AcceptKeepsFlight(s, token);
  }

  lemma ReadPipeline(s: State)
    requires PipelineOk(s, Flight(s)) && CanReadResponse(s)
    ensures PipelineOk(ReadOne(s), Flight(ReadOne(s)))
    ensures s.responses[0].Incoming? ==> Flight(ReadOne(s)) == Flight(s)
    ensures s.responses[0].Answer? ==>
              && Flight(s) == [s.responses[0].id] + Flight(ReadOne(s)) && s.responses[0].id !in Flight(ReadOne(s))
              && Lookup(s.computed, s.responses[0].id) == Some(s.responses[0].outcome)
  {
    ReadShortensFlight(s);
    assert ReadOne(s).responses == s.responses[1..];
    if s.responses[0].Answer? {
      WithoutFirst(s.responses[0].id, Flight(ReadOne(s)));
    }
  }

  lemma WithoutFirst(id: ReqId, rest: seq<ReqId>)
    requires NoDuplicates([id] + rest)
    ensures NoDuplicates(rest) && id !in rest
  {
    var all := [id] + rest;
    assert all[0] == id && forall i | 0 <= i < |rest| :: rest[i] == all[i + 1];
  }

  lemma SamePipeline(s: State, s': State)
    requires PipelineOk(s, Flight(s))
    requires s'.responses == s.responses && s'.working == s.working && s'.requests == s.requests && s'.computed == s.computed
    ensures PipelineOk(s', Flight(s)) && Flight(s') == Flight(s)
  {
  }

  // ---------------------------------------------------------------- requests belong to their calls

  /** Steps that neither move requests nor make a call wait. */
  lemma SameRequests(s: State, s': State)
    requires RequestsOk(s)
    requires s'.requests == s.requests && s'.gatewayPorts == s.gatewayPorts
    requires s'.working.Taken? ==> s'.working == s.working
    requires forall t | t in s'.tasks && s'.tasks[t].phase.Waiting? :: t in s.tasks && s.tasks[t] == s'.tasks[t]
    ensures RequestsOk(s')
  {
  }

  lemma SendRequests(s: State, t: TaskId)
    requires CallsOk(s) && CanSend(s, t)
    ensures RequestsOk(Sent(s, t))
  {
    var s', id := Sent(s, t), s.tasks[t].phase.id;
    assert TaskOk(s, t) && IdOk(s, Flight(s), id);
    forall u | u in s'.tasks && s'.tasks[u].phase == Waiting(id) ensures u == t {
      assert TaskOk(s, u);
    }
    forall i | 0 <= i < |s.requests| ensures s.requests[i].id != id {
      RequestIdsMember(s.requests, i);
      assert s.requests[i].id in Flight(s);
    }
    if s.working.Taken? {
      assert s.working.request.id in WorkIds(s.working);
      assert s.working.request.id in Flight(s);
    }
  }

  lemma TakeRequests(s: State)
    requires RequestsOk(s) && CanTakeRequest(s)
    ensures RequestsOk(TookRequest(s))
  {
  }

  // ---------------------------------------------------------------- every run

  lemma QuietStepKeepsCalls(s: State, s': State)
    requires CallsOk(s)
    requires s'.tasks == s.tasks && s'.pending == s.pending && s'.mail == s.mail && s'.readerRunning == s.readerRunning
    requires s'.nextId == s.nextId && s'.nextTask == s.nextTask && s'.calledBy == s.calledBy
    requires s'.computed == s.computed && s'.completed == s.completed && s'.gatewayPorts == s.gatewayPorts
    requires s'.responses == s.responses && s'.working == s.working && s'.requests == s.requests
    ensures CallsOk(s')
  {
    SameBook(s, s', Flight(s));
    SamePipeline(s, s');
    SameRequests(s, s');
  }

  /** Steps of the pipeline's two ends and of the executor between them. */
  lemma PipelineStepKeepsCalls(s: State, step: Step)
    requires CallsOk(s) && Enabled(s, step)
    requires step.TakeRequest? || step.Perform? || step.SendResponse? || step.Accept? || step.ReadResponse?
    ensures CallsOk(Apply(s, step))
  {
    var f := Flight(s);
    match step {
      case TakeRequest =>
        SameBook(s, TookRequest(s), f);
        TakePipeline(s);
        TakeRequests(s);
      case Perform(outcome) =>
        PerformPipeline(s, outcome);
        PerformBook(s, f, outcome);
        SameRequests(s, Performed(s, outcome));
      case SendResponse =>
        SameBook(s, SentResponse(s), f);
        RespondPipeline(s);
        SameRequests(s, SentResponse(s));
      case Accept(token) =>
        SameBook(s, Accepted(s, token), f);
        AcceptPipeline(s, token);
        SameRequests(s, Accepted(s, token));
      case ReadResponse =>
        ReadPipeline(s);
        ReadBook(s, f, Flight(ReadOne(s)));
        SameRequests(s, ReadOne(s));
    }
  }

  /** Steps of a call up to its sending. */
  lemma CallStepKeepsCalls(s: State, step: Step)
    requires CallsOk(s) && Enabled(s, step)
    requires step.Unregister? || step.Enlist? || step.Send? || step.SendFails?
    ensures CallsOk(Apply(s, step))
  {
    var f := Flight(s);
    match step {
      case Unregister(t) =>
        UnregisterBook(s, f, t);
        SamePipeline(s, Unregistered(s, t));
        SameRequests(s, Unregistered(s, t));
      case Enlist(t) =>
        EnlistBook(s, f, t);
        SamePipeline(s, EnlistedCall(s, t));
        SameRequests(s, EnlistedCall(s, t));
      case Send(t) =>
        SendBook(s, f, t);
        SendPipeline(s, t);
        SendRequests(s, t);
      case SendFails(t) =>
        SendFailsBook(s, f, t);
        SamePipeline(s, SendFailed(s, t));
        SameRequests(s, SendFailed(s, t));
    }
  }

  /** Steps that complete a call, and the drain. */
  lemma CompletionKeepsCalls(s: State, step: Step)
    requires CallsOk(s) && Enabled(s, step)
    requires step.Register? || step.Complete? || step.ReaderStops?
    ensures CallsOk(Apply(s, step))
  {
    var f := Flight(s);
    match step {
      case Register(t) =>
        RegisterBook(s, f, t);
        SamePipeline(s, RegisteredForward(s, t));
        SameRequests(s, RegisteredForward(s, t));
      case Complete(t) =>
        CompleteBook(s, f, t);
        SamePipeline(s, CompletedCall(s, t));
        SameRequests(s, CompletedCall(s, t));
      case ReaderStops =>
        ReaderStopBook(s, f);
        SamePipeline(s, ReaderStopped(s));
        SameRequests(s, ReaderStopped(s));
    }
  }

  /** Steps of a session handler. */
  lemma HandlerStepKeepsCalls(s: State, step: Step)
    requires CallsOk(s) && Enabled(s, step)
    requires step.RequestForward? || step.RequestOther? || step.CancelHandle? || step.StoreHandle?
    ensures CallsOk(Apply(s, step))
  {
    var f := Flight(s);
    match step {
      case RequestForward(c, address, port) =>
        RequestForwardBook(s, f, c, address, port);
        SamePipeline(s, RequestedForward(s, c, address, port));
        SameRequests(s, RequestedForward(s, c, address, port));
      case RequestOther(c) =>
        RequestOtherBook(s, f, c);
        SamePipeline(s, RequestedOther(s, c));
        SameRequests(s, RequestedOther(s, c));
      case CancelHandle(c, key) =>
        CancelHandleBook(s, f, c, key);
        SamePipeline(s, CancelledHandle(s, c, key));
        SameRequests(s, CancelledHandle(s, c, key));
      case StoreHandle(t) =>
        StoreHandleBook(s, f, t);
        SamePipeline(s, StoredHandle(s, t));
        SameRequests(s, StoredHandle(s, t));
    }
  }

  lemma StepKeepsCalls(s: State, step: Step)
    requires CallsOk(s) && Enabled(s, step)
    ensures CallsOk(Apply(s, step))
  {
    match step {
      case OpenSession => QuietStepKeepsCalls(s, OpenedSession(s));
      case DropSession(c) => QuietStepKeepsCalls(s, DroppedSession(s, c));
      case CloseSession(c) => QuietStepKeepsCalls(s, ClosedSession(s, c));
      case Dispatch => QuietStepKeepsCalls(s, Dispatched(s));
      case RequestForward(_, _, _) => HandlerStepKeepsCalls(s, step);
      case RequestOther(_) => HandlerStepKeepsCalls(s, step);
      case CancelHandle(_, _) => HandlerStepKeepsCalls(s, step);
      case StoreHandle(_) => HandlerStepKeepsCalls(s, step);
      case TakeRequest => PipelineStepKeepsCalls(s, step);
      case Perform(_) => PipelineStepKeepsCalls(s, step);
      case SendResponse => PipelineStepKeepsCalls(s, step);
      case Accept(_) => PipelineStepKeepsCalls(s, step);
      case ReadResponse => PipelineStepKeepsCalls(s, step);
      case Unregister(_) => CallStepKeepsCalls(s, step);
      case Enlist(_) => CallStepKeepsCalls(s, step);
      case Send(_) => CallStepKeepsCalls(s, step);
      case SendFails(_) => CallStepKeepsCalls(s, step);
      case Register(_) => CompletionKeepsCalls(s, step);
      case Complete(_) => CompletionKeepsCalls(s, step);
      case ReaderStops => CompletionKeepsCalls(s, step);
    }
  }

  lemma {:induction false} RunKeepsCalls(run: Run)
    requires Legal(run)
    ensures CallsOk(Final(run))
  {
    match run {
      case Begin(_) =>
        assert Flight(Final(run)) == [];
      case Next(before, step) =>
        RunKeepsCalls(before);
        StepKeepsCalls(Final(before), step);
    }
  }

  // ---------------------------------------------------------------- what this means for a call

  /** While the reader runs, every request in the pipeline is there once and its call waits for it. */
  lemma InFlightIsAwaited(run: Run, id: ReqId)
    requires Legal(run) && Final(run).readerRunning
    ensures var s := Final(run);
            && NoDuplicates(Flight(s))
            && (id in Flight(s) <==> id in s.pending && s.pending[id] in s.tasks && s.tasks[s.pending[id]].phase == Waiting(id))
  {
    RunKeepsCalls(run);
    var s := Final(run);
    assert IdOk(s, Flight(s), id);
    if id in s.pending && s.pending[id] in s.tasks && s.tasks[s.pending[id]].phase == Waiting(id) {
      assert TaskOk(s, s.pending[id]);
    }
  }

  /** A waiting call has its completion at hand, or its request is still in the pipeline. */
  lemma NoCallIsLost(run: Run, t: TaskId)
    requires Legal(run)
    requires t in Final(run).tasks && Final(run).tasks[t].phase.Waiting?
    ensures var s, id := Final(run), Final(run).tasks[t].phase.id;
            if id in s.pending then id in Flight(s) && !CanResume(s, t) else CanResume(s, t)
  {
    RunKeepsCalls(run);
    var s := Final(run);
    assert TaskOk(s, t) && IdOk(s, Flight(s), s.tasks[t].phase.id);
  }

  /** `later` continues `earlier`. */
  predicate Continues(later: Run, earlier: Run) {
    later == earlier || (later.Next? && Continues(later.before, earlier))
  }

  /** The records of `s` stand in `s'`. */
  ghost predicate RecordsStand(s: State, s': State) {
    && (forall id | id in s.computed :: Lookup(s'.computed, id) == Some(s.computed[id]))
    && (forall id | id in s.completed :: Lookup(s'.completed, id) == Some(s.completed[id]))
  }

  /** No id gets a second result, and none a second completion. */
  lemma NewRecordsAreNew(s: State, step: Step)
    requires CallsOk(s) && Enabled(s, step)
    requires step.Register? || step.Complete? || step.Perform?
    ensures RecordsStand(s, Apply(s, step))
  {
    match step {
      case Register(t) => assert TaskOk(s, t) && IdOk(s, Flight(s), s.tasks[t].phase.id);
      case Complete(t) => assert TaskOk(s, t) && IdOk(s, Flight(s), s.tasks[t].phase.id);
      case Perform(_) => assert s.working.request.id !in s.computed;
    }
  }

  lemma KeepsRecords(s: State, step: Step)
    requires Enabled(s, step) && !step.Register? && !step.Complete? && !step.Perform?
    ensures Apply(s, step).computed == s.computed && Apply(s, step).completed == s.completed
  {
    match step {
      case OpenSession =>
      case RequestForward(_, _, _) =>
      case RequestOther(_) =>
      case CancelHandle(_, _) =>
      case DropSession(_) =>
      case CloseSession(_) =>
      case Unregister(_) =>
      case Enlist(_) =>
      case Send(_) =>
      case SendFails(_) =>
      case TakeRequest =>
      case SendResponse =>
      case Accept(_) =>
      case ReadResponse =>
      case Dispatch =>
      case ReaderStops =>
      case StoreHandle(_) =>
    }
  }

  lemma RecordsStandAfter(s: State, step: Step)
    requires CallsOk(s) && Enabled(s, step)
    ensures RecordsStand(s, Apply(s, step))
  {
    if step.Register? || step.Complete? || step.Perform? {
      NewRecordsAreNew(s, step);
    } else {
      KeepsRecords(s, step);
    }
  }

  /**
   * A call completes at most once, for good, and an answer is the outcome that the executor computed for
   * that very request.
   */
  lemma {:induction false} CallsCompleteOnce(later: Run, earlier: Run, id: ReqId)
    requires Legal(later) && Continues(later, earlier) && Legal(earlier)
    requires id in Final(earlier).completed
    ensures Lookup(Final(later).completed, id) == Lookup(Final(earlier).completed, id)
    ensures Final(earlier).completed[id].Answered? ==>
              Lookup(Final(later).computed, id) == Some(Final(earlier).completed[id].outcome)
  {
    if later == earlier {
      RunKeepsCalls(earlier);
      var s := Final(earlier);
      assert IdOk(s, Flight(s), id);
    } else {
      CallsCompleteOnce(later.before, earlier, id);
      RunKeepsCalls(later.before);
      RecordsStandAfter(Final(later.before), later.step);
    }
  }

  /** The drain completes every waiter that is registered when the reader stops. */
  lemma DrainReachesEveryWaiter(run: Run, t: TaskId)
    requires Legal(run) && run.Next? && run.step.ReaderStops?
    requires t in Final(run).tasks && (Final(run).tasks[t].phase.Enlisted? || Final(run).tasks[t].phase.Waiting?)
    ensures Final(run).tasks[t].phase.id in Final(run).mail
    ensures Final(run).pending == map[]
  {
    RunKeepsCalls(run);
    var s := Final(run);
    assert TaskOk(s, t) && IdOk(s, Flight(s), s.tasks[t].phase.id);
  }

  // ---------------------------------------------------------------- calls made after the reader stopped

  /** The call waits, and only a running reader could answer it. */
  predicate Stranded(s: State, t: TaskId) {
    !s.readerRunning && t in s.tasks && s.tasks[t].phase.Waiting? && s.tasks[t].phase.id in s.pending
  }

  predicate Entered(s: State, t: TaskId) {
    t in s.tasks && (s.tasks[t].phase.Enlisted? || s.tasks[t].phase.Waiting?)
  }

  /** The call is in the map of waiters, where no reader will look. */
  predicate Overdue(s: State, t: TaskId) {
    !s.readerRunning && Entered(s, t) && s.tasks[t].phase.id in s.pending
  }

  lemma OverdueFacts(s: State, t: TaskId)
    requires CallsOk(s) && Overdue(s, t)
    ensures s.tasks[t].phase.id !in s.mail && t < s.nextTask
    ensures forall u | Entered(s, u) && u != t :: s.tasks[u].phase.id != s.tasks[t].phase.id
  {
    assert TaskOk(s, t) && IdOk(s, Flight(s), s.tasks[t].phase.id);
    assert forall u | u in s.tasks :: TaskOk(s, u);
  }

  /** Steps of a call in progress. */
  predicate OfCall(step: Step) {
    step.Unregister? || step.Enlist? || step.Send? || step.SendFails? || step.Register? || step.Complete? || step.StoreHandle?
  }

  /** Other steps touch no call that there is. */
  lemma OthersLeaveCalls(s: State, step: Step, t: TaskId)
    requires Enabled(s, step) && !OfCall(step) && t < s.nextTask
    ensures var s' := Apply(s, step);
            && Lookup(s'.tasks, t) == Lookup(s.tasks, t) && s.nextTask <= s'.nextTask
            && (!s.readerRunning ==> s'.pending == s.pending && !s'.readerRunning)
  {
  }

  lemma OverdueStep(s: State, step: Step, t: TaskId)
    requires Enabled(s, step) && Overdue(s, t) && s.tasks[t].phase.id !in s.mail && t < s.nextTask
    requires forall u | Entered(s, u) && u != t :: s.tasks[u].phase.id != s.tasks[t].phase.id
    ensures var s' := Apply(s, step);
            if step == SendFails(t) then t !in s'.tasks
            else Overdue(s', t) && (s.tasks[t].phase.Waiting? ==> s'.tasks[t] == s.tasks[t])
  {
    assert step.SendFails? ==> Entered(s, step.task);
  }

  /** It stays there until its own send fails, and then it is over. */
  lemma OverdueStays(s: State, step: Step, t: TaskId)
    requires CallsOk(s) && Enabled(s, step) && Overdue(s, t)
    ensures var s' := Apply(s, step);
            if step == SendFails(t) then t !in s'.tasks
            else Overdue(s', t) && (s.tasks[t].phase.Waiting? ==> s'.tasks[t] == s.tasks[t])
  {
    OverdueFacts(s, t);
    OverdueStep(s, step, t);
  }

  lemma OverdueWasStep(s: State, step: Step, t: TaskId)
    requires Enabled(s, step) && Overdue(Apply(s, step), t)
    requires step.Enlist? && step.task != t && Entered(s, t) ==> s.tasks[step.task].phase.id != s.tasks[t].phase.id
    ensures if step == Enlist(t) then !s.readerRunning else Overdue(s, t)
  {
  }

  /** And it gets there only by entering after the reader stopped. */
  lemma OverdueWas(s: State, step: Step, t: TaskId)
    requires CallsOk(s) && Enabled(s, step) && Overdue(Apply(s, step), t)
    ensures if step == Enlist(t) then !s.readerRunning else Overdue(s, t)
  {
    assert forall u | u in s.tasks :: TaskOk(s, u);
    OverdueWasStep(s, step, t);
  }

  /** The call is past the point at which it enters the map of waiters. */
  predicate PastEntering(s: State, t: TaskId) {
    t < s.nextTask && (t in s.tasks ==> !s.tasks[t].phase.Unregistering? && !s.tasks[t].phase.Prepared?)
  }

  lemma PastEnteringStays(s: State, step: Step, t: TaskId)
    requires Enabled(s, step) && PastEntering(s, t)
    ensures PastEntering(Apply(s, step), t) && step != Enlist(t)
  {
    if !OfCall(step) {
      OthersLeaveCalls(s, step, t);
    }
  }

  /** The call entered the map of waiters after the reader had stopped. */
  predicate EnteredLate(run: Run, t: TaskId)
    requires Legal(run)
  {
    run.Next? && ((run.step == Enlist(t) && !Final(run.before).readerRunning) || EnteredLate(run.before, t))
  }

  lemma EnteringStep(s: State, t: TaskId)
    requires CallsOk(s) && CanEnlist(s, t)
    ensures PastEntering(EnlistedCall(s, t), t)
    ensures !s.readerRunning ==> Overdue(EnlistedCall(s, t), t)
  {
    assert TaskOk(s, t);
  }

  /** Being overdue is exactly having entered late and not having failed to send since. */
  lemma {:induction false} LateIsOverdue(run: Run, t: TaskId)
    requires Legal(run)
    ensures EnteredLate(run, t) ==> PastEntering(Final(run), t) && (t in Final(run).tasks ==> Overdue(Final(run), t))
    ensures Overdue(Final(run), t) ==> EnteredLate(run, t)
  {
    if run.Next? {
      var s, step := Final(run.before), run.step;
      RunKeepsCalls(run.before);
      LateIsOverdue(run.before, t);
      if Overdue(Final(run), t) {
        OverdueWas(s, step, t);
      }
      if EnteredLate(run.before, t) {
        PastEnteringStays(s, step, t);
        LateStays(s, step, t);
      } else if step == Enlist(t) {
        EnteringStep(s, t);
      }
    }
  }

  lemma LateStays(s: State, step: Step, t: TaskId)
    requires CallsOk(s) && Enabled(s, step) && t < s.nextTask && (t in s.tasks ==> Overdue(s, t))
    ensures t in Apply(s, step).tasks ==> Overdue(Apply(s, step), t)
  {
    if t in s.tasks {
      OverdueStays(s, step, t);
    } else {
      TasksDoNotReturn(s, step, t);
    }
  }

  lemma TasksDoNotReturn(s: State, step: Step, t: TaskId)
    requires Enabled(s, step) && t < s.nextTask && t !in s.tasks
    ensures t !in Apply(s, step).tasks
  {
    if !OfCall(step) {
      OthersLeaveCalls(s, step, t);
    }
  }

  /** On every run, the calls that wait for ever are exactly those that entered after the reader had stopped. */
  lemma StrandedExactly(run: Run, t: TaskId)
    requires Legal(run) && t in Final(run).tasks && Final(run).tasks[t].phase.Waiting?
    ensures Stranded(Final(run), t) <==> EnteredLate(run, t)
  {
    LateIsOverdue(run, t);
  }

  lemma {:induction false} LateForGood(later: Run, earlier: Run, t: TaskId)
    requires Legal(later) && Continues(later, earlier) && Legal(earlier)
    ensures EnteredLate(earlier, t) ==> EnteredLate(later, t)
    ensures PastEntering(Final(earlier), t) && !EnteredLate(earlier, t) ==> PastEntering(Final(later), t) && !EnteredLate(later, t)
  {
    if later != earlier {
      LateForGood(later.before, earlier, t);
      if PastEntering(Final(later.before), t) {
        PastEnteringStays(Final(later.before), later.step, t);
      }
    }
  }

  /**
   * What becomes of a call is settled when it enters the map of waiters. If the reader runs then, it is
   * stranded in no continuation. If the reader has stopped, it is stranded as soon as it is sent, in every
   * continuation.
   */
  lemma EnteringSettlesIt(before: Run, t: TaskId, later: Run)
    requires Legal(before) && CanEnlist(Final(before), t)
    requires Legal(later) && Continues(later, Next(before, Enlist(t)))
    ensures Final(before).readerRunning ==> !Stranded(Final(later), t)
    ensures !Final(before).readerRunning && t in Final(later).tasks && Final(later).tasks[t].phase.Waiting? ==>
              Stranded(Final(later), t)
  {
    var run := Next(before, Enlist(t));
    RunKeepsCalls(before);
    EnteringStep(Final(before), t);
    if Final(before).readerRunning && EnteredLate(before, t) {
      LateIsOverdue(before, t);
    }
    LateForGood(later, run, t);
    LateIsOverdue(later, t);
  }

  /** Once stranded, a call is stranded in every continuation. */
  lemma {:induction false} StrandedInEveryContinuation(later: Run, earlier: Run, t: TaskId)
    requires Legal(later) && Continues(later, earlier) && Legal(earlier)
    requires Stranded(Final(earlier), t)
    ensures Stranded(Final(later), t)
  {
    if later != earlier {
      StrandedInEveryContinuation(later.before, earlier, t);
      RunKeepsCalls(later.before);
      OverdueStays(Final(later.before), later.step, t);
    }
  }

  lemma Extend(run: Run, step: Step, s: State)
    requires Legal(run) && Enabled(Final(run), step) && s == Apply(Final(run), step)
    ensures Legal(Next(run, step)) && Final(Next(run, step)) == s
  {
  }

  lemma StrandingSteps(s: State)
    requires s.nextId == 1 && s.nextTask == 0 && !s.readerRunning
    requires s.tasks == map[] && s.sessions == map[0 := Session(map[], None, false)]
    ensures CanRequestOther(s, 0) && CanEnlist(RequestedOther(s, 0), 0) && CanSend(EnlistedCall(RequestedOther(s, 0), 0), 0)
    ensures Stranded(Sent(EnlistedCall(RequestedOther(s, 0), 0), 0), 0)
  {
  }

  /** A run on which a call is stranded. */
  lemma CallCanBeStranded() returns (run: Run)
    ensures Legal(run) && Stranded(Final(run), 0)
  {
    var r0 := Next(Next(Begin(false), OpenSession), ReaderStops);
    assert Legal(r0);
    var s := Final(r0);
    StrandingSteps(s);
    Extend(r0, RequestOther(0), RequestedOther(s, 0));
    var r1 := Next(r0, RequestOther(0));
    Extend(r1, Enlist(0), EnlistedCall(RequestedOther(s, 0), 0));
    var r2 := Next(r1, Enlist(0));
    Extend(r2, Send(0), Sent(EnlistedCall(RequestedOther(s, 0), 0), 0));
    run := Next(r2, Send(0));
  }
}
