/**
 * The control protocol between the SSH parser and its executor process (src/executor.rs, src/sshd.rs)
 * as a transition system.
 *
 * Session handlers, the reader thread, the executor's request loop and the accept loops of the
 * listeners take steps in any order. A call to the executor goes through the phases of `Phase`: it
 * enters the map of waiters, then the request queue, and is resumed by the reader. A remote forward is
 * known in three places that no lock covers together: the executor's listeners, the client's
 * registrations and the handles of the session that asked for it (section 7.1 of RFC 4254).
 *
 * This file defines the system. ExecutorCalls.dfy and RemoteForwards.dfy prove what holds on every run.
 */
module ExecutorProtocol {
  import opened Common

  type ReqId = nat
  type Token = nat
  type TaskId = nat
  type SessionId = nat

  /** How a session names one of its remote forwards. */
  datatype ForwardKey = ForwardKey(address: string, port: nat)

  /** What a listener is bound to. */
  datatype BindAddr = BindAddr(host: string, port: nat)

  datatype Request =
    | StartRemoteForward(id: ReqId, token: Token, bind: BindAddr)
    | CancelRemoteForward(id: ReqId, token: Token)
    | OtherRequest(id: ReqId)

  /** What the executor computes for a request. */
  datatype Outcome = Ok | BoundPort(port: nat) | Err

  datatype Response =
    | Answer(id: ReqId, outcome: Outcome)
    | Incoming(token: Token)

  /** What a waiting call receives: the executor's answer, or the error that the drain hands out. */
  datatype Completion = Answered(outcome: Outcome) | ChannelClosed

  datatype Job =
    | Forward(session: SessionId, address: string, port: nat, token: Token)
    | Cancel(token: Token)
    | Other

  datatype Phase =
    | Unregistering        // cancel: out of the session's handles, still registered
    | Prepared(id: ReqId)  // request id allocated
    | Enlisted(id: ReqId)  // waiter in `pending`
    | Waiting(id: ReqId)   // request sent
    | Listening(port: nat) // forward: registered, not yet in the session's handles

  /** A call in progress. `caller` is the session whose handler awaits it; a drop awaits nothing. */
  datatype Task = Task(job: Job, phase: Phase, caller: Option<SessionId>)

  /** `awaits` is the call that the session's handler is in; a session handles one thing at a time. */
  datatype Session = Session(handles: map<ForwardKey, Token>, awaits: Option<TaskId>, dropping: bool)

  /** The executor's request loop: between requests, before and after carrying one out. */
  datatype Work = NoWork | Taken(request: Request) | Done(id: ReqId, outcome: Outcome)

  /** What became of a connection: it went to a session, or was closed. */
  datatype Delivery = Delivery(token: Token, to: Option<SessionId>)

  const NO_TOKEN: Token := 0

  datatype State = State(
    gatewayPorts: bool,
    nextId: ReqId, nextToken: Token, nextTask: TaskId, nextSession: SessionId,
    tasks: map<TaskId, Task>,
    sessions: map<SessionId, Session>,
    pending: map<ReqId, TaskId>,
    mail: map<ReqId, Completion>,
    requests: seq<Request>,
    working: Work,
    responses: seq<Response>,
    events: seq<Token>,
    listeners: map<Token, BindAddr>,
    registrations: map<Token, SessionId>,
    readerRunning: bool,
    // records that no step reads
    deliveries: seq<Delivery>,
    calledBy: map<ReqId, TaskId>,
    about: map<ReqId, Token>,            // the token that a request is about, or NO_TOKEN
    requestedBy: map<Token, SessionId>,
    computed: map<ReqId, Outcome>,
    completed: map<ReqId, Completion>)

  function Initial(gatewayPorts: bool): State {
    State(gatewayPorts, 1, 1, 0, 0, map[], map[], map[], map[], [], NoWork, [], [], map[], map[], true,
          [], map[], map[], map[], map[], map[])
  }

  /** The host that a forward for `address` is bound on. */
  function BindHost(gatewayPorts: bool, address: string): string {
    if !gatewayPorts then "127.0.0.1" else if address == "" then "0.0.0.0" else address
  }

  function RequestOf(s: State, task: Task): Request
    requires task.phase.Enlisted? || task.phase.Waiting?
  {
    match task.job
    case Forward(_, address, port, token) =>
      StartRemoteForward(task.phase.id, token, BindAddr(BindHost(s.gatewayPorts, address), port))
    case Cancel(token) => CancelRemoteForward(task.phase.id, token)
    case Other => OtherRequest(task.phase.id)
  }

  datatype Step =
    | OpenSession
    | RequestForward(session: SessionId, address: string, port: nat)
    | RequestOther(session: SessionId)
    | CancelHandle(session: SessionId, key: ForwardKey)
    | DropSession(session: SessionId)
    | CloseSession(session: SessionId)
    | Unregister(task: TaskId)
    | Enlist(task: TaskId)
    | Send(task: TaskId)
    | SendFails(task: TaskId)
    | TakeRequest
    | Perform(outcome: Outcome)
    | SendResponse
    | Accept(token: Token)
    | ReadResponse
    | Dispatch
    | ReaderStops
    | Register(task: TaskId)
    | Complete(task: TaskId)
    | StoreHandle(task: TaskId)

  predicate IdleSession(s: State, session: SessionId) {
    session in s.sessions && s.sessions[session].awaits.None?
  }

  /** What the executor and the operating system may answer to a request. */
  predicate Possible(s: State, r: Request, outcome: Outcome) {
    match r
    case StartRemoteForward(_, _, bind) =>
      || outcome.Err?
      || (&& outcome.BoundPort? && outcome.port != 0
          && (bind.port != 0 ==> outcome.port == bind.port)
          && BindAddr(bind.host, outcome.port) !in s.listeners.Values)
    case CancelRemoteForward(_, token) => outcome == if token in s.listeners then Ok else Err
    case OtherRequest(_) => outcome.Ok? || outcome.Err?
  }

  /** The tasks with `t` in another phase. */
  function InPhase(s: State, t: TaskId, phase: Phase): map<TaskId, Task>
    requires t in s.tasks
  {
    s.tasks[t := s.tasks[t].(phase := phase)]
  }

  /** The handler that awaited the call, if there is one, is free again. */
  function FreedSessions(sessions: map<SessionId, Session>, caller: Option<SessionId>): map<SessionId, Session> {
    if caller.Some? && caller.value in sessions
    then sessions[caller.value := sessions[caller.value].(awaits := None)]
    else sessions
  }

  // ---------------------------------------------------------------- session handlers

  function OpenedSession(s: State): State {
    s.(sessions := s.sessions[s.nextSession := Session(map[], None, false)], nextSession := s.nextSession + 1)
  }

  /** A forward request that names none of the session's forwards. Other requests are refused on the spot. */
  predicate CanRequestForward(s: State, c: SessionId, address: string, port: nat) {
    && IdleSession(s, c) && !s.sessions[c].dropping
    && port < 0x1_0000
    && ForwardKey(address, port) !in s.sessions[c].handles
  }

  function RequestedForward(s: State, c: SessionId, address: string, port: nat): State
    requires CanRequestForward(s, c, address, port)
  {
    s.(tasks := s.tasks[s.nextTask := Task(Forward(c, address, port, s.nextToken), Prepared(s.nextId), Some(c))],
       sessions := s.sessions[c := s.sessions[c].(awaits := Some(s.nextTask))],
       nextTask := s.nextTask + 1,
       nextId := s.nextId + 1,
       nextToken := s.nextToken + 1,
       calledBy := s.calledBy[s.nextId := s.nextTask],
       about := s.about[s.nextId := s.nextToken],
       requestedBy := s.requestedBy[s.nextToken := c])
  }

  predicate CanRequestOther(s: State, c: SessionId) {
    IdleSession(s, c) && !s.sessions[c].dropping
  }

  function RequestedOther(s: State, c: SessionId): State
    requires CanRequestOther(s, c)
  {
    s.(tasks := s.tasks[s.nextTask := Task(Other, Prepared(s.nextId), Some(c))],
       sessions := s.sessions[c := s.sessions[c].(awaits := Some(s.nextTask))],
       nextTask := s.nextTask + 1,
       nextId := s.nextId + 1,
       calledBy := s.calledBy[s.nextId := s.nextTask],
       about := s.about[s.nextId := NO_TOKEN])
  }

  predicate CanCancelHandle(s: State, c: SessionId, key: ForwardKey) {
    IdleSession(s, c) && key in s.sessions[c].handles
  }

  /** A handle goes and its cancellation starts. The drop of a session spawns the cancellations and awaits none. */
  function CancelledHandle(s: State, c: SessionId, key: ForwardKey): State
    requires CanCancelHandle(s, c, key)
  {
    var session := s.sessions[c];
    var task := Task(Cancel(session.handles[key]), Unregistering, if session.dropping then None else Some(c));
    var awaits := if session.dropping then None else Some(s.nextTask);
    s.(sessions := s.sessions[c := Session(session.handles - {key}, awaits, session.dropping)],
       tasks := s.tasks[s.nextTask := task],
       nextTask := s.nextTask + 1)
  }

  predicate CanDropSession(s: State, c: SessionId) {
    IdleSession(s, c)
  }

  function DroppedSession(s: State, c: SessionId): State
    requires CanDropSession(s, c)
  {
    s.(sessions := s.sessions[c := s.sessions[c].(dropping := true)])
  }

  predicate CanCloseSession(s: State, c: SessionId) {
    IdleSession(s, c) && s.sessions[c].dropping && s.sessions[c].handles == map[]
  }

  function ClosedSession(s: State, c: SessionId): State
    requires CanCloseSession(s, c)
  {
    s.(sessions := s.sessions - {c})
  }

  // ---------------------------------------------------------------- calls

  predicate CanUnregister(s: State, t: TaskId) {
    t in s.tasks && s.tasks[t].job.Cancel? && s.tasks[t].phase.Unregistering?
  }

  function Unregistered(s: State, t: TaskId): State
    requires CanUnregister(s, t)
  {
    s.(tasks := InPhase(s, t, Prepared(s.nextId)),
       nextId := s.nextId + 1,
       calledBy := s.calledBy[s.nextId := t],
       about := s.about[s.nextId := s.tasks[t].job.token],
       registrations := s.registrations - {s.tasks[t].job.token})
  }

  predicate CanEnlist(s: State, t: TaskId) {
    t in s.tasks && s.tasks[t].phase.Prepared?
  }

  function EnlistedCall(s: State, t: TaskId): State
    requires CanEnlist(s, t)
  {
    s.(tasks := InPhase(s, t, Enlisted(s.tasks[t].phase.id)), pending := s.pending[s.tasks[t].phase.id := t])
  }

  predicate CanSend(s: State, t: TaskId) {
    t in s.tasks && s.tasks[t].phase.Enlisted?
  }

  function Sent(s: State, t: TaskId): State
    requires CanSend(s, t)
  {
    s.(tasks := InPhase(s, t, Waiting(s.tasks[t].phase.id)), requests := s.requests + [RequestOf(s, s.tasks[t])])
  }

  /** The write fails: the waiter is withdrawn and the call ends with an error. */
  function SendFailed(s: State, t: TaskId): State
    requires CanSend(s, t)
  {
    var id := s.tasks[t].phase.id;
    s.(tasks := s.tasks - {t},
       sessions := FreedSessions(s.sessions, s.tasks[t].caller),
       pending := s.pending - {id},
       mail := s.mail - {id})
  }

  predicate CanResume(s: State, t: TaskId) {
    t in s.tasks && s.tasks[t].phase.Waiting? && s.tasks[t].phase.id in s.mail
  }

  /** The completion at hand says that a forward was bound. */
  predicate WasBound(s: State, t: TaskId)
    requires CanResume(s, t)
  {
    var c := s.mail[s.tasks[t].phase.id];
    s.tasks[t].job.Forward? && c.Answered? && c.outcome.BoundPort?
  }

  predicate CanRegister(s: State, t: TaskId) {
    CanResume(s, t) && WasBound(s, t)
  }

  /** A forward that was bound is registered next. */
  function RegisteredForward(s: State, t: TaskId): State
    requires CanRegister(s, t)
  {
    var id, job := s.tasks[t].phase.id, s.tasks[t].job;
    s.(mail := s.mail - {id},
       completed := s.completed[id := s.mail[id]],
       tasks := InPhase(s, t, Listening(s.mail[id].outcome.port)),
       registrations := s.registrations[job.token := job.session])
  }

  predicate CanComplete(s: State, t: TaskId) {
    CanResume(s, t) && !WasBound(s, t)
  }

  /** Any other call is over with its completion. */
  function CompletedCall(s: State, t: TaskId): State
    requires CanComplete(s, t)
  {
    var id := s.tasks[t].phase.id;
    s.(mail := s.mail - {id},
       completed := s.completed[id := s.mail[id]],
       tasks := s.tasks - {t},
       sessions := FreedSessions(s.sessions, s.tasks[t].caller))
  }

  predicate CanStoreHandle(s: State, t: TaskId) {
    && t in s.tasks && s.tasks[t].phase.Listening? && s.tasks[t].job.Forward?
    && s.tasks[t].job.session in s.sessions
  }

  function StoredHandle(s: State, t: TaskId): State
    requires CanStoreHandle(s, t)
  {
    var job := s.tasks[t].job;
    var session := s.sessions[job.session];
    var key := ForwardKey(job.address, s.tasks[t].phase.port);
    var stored := s.sessions[job.session := session.(handles := session.handles[key := job.token])];
    s.(tasks := s.tasks - {t}, sessions := FreedSessions(stored, s.tasks[t].caller))
  }

  // ---------------------------------------------------------------- executor

  predicate CanTakeRequest(s: State) {
    s.working.NoWork? && s.requests != []
  }

  function TookRequest(s: State): State
    requires CanTakeRequest(s)
  {
    s.(working := Taken(s.requests[0]), requests := s.requests[1..])
  }

  predicate CanPerform(s: State, outcome: Outcome) {
    s.working.Taken? && Possible(s, s.working.request, outcome)
  }

  function Performed(s: State, outcome: Outcome): State
    requires CanPerform(s, outcome)
  {
    var r := s.working.request;
    s.(working := Done(r.id, outcome),
       computed := s.computed[r.id := outcome],
       listeners :=
         if r.StartRemoteForward? && outcome.BoundPort?
         then s.listeners[r.token := BindAddr(r.bind.host, outcome.port)]
         else if r.CancelRemoteForward? then s.listeners - {r.token}
         else s.listeners)
  }

  predicate CanSendResponse(s: State) {
    s.working.Done?
  }

  function SentResponse(s: State): State
    requires CanSendResponse(s)
  {
    s.(responses := s.responses + [Answer(s.working.id, s.working.outcome)], working := NoWork)
  }

  /** An accept loop reports a connection. One that is being aborted may still do so, hence any token. */
  predicate CanAccept(s: State, token: Token) {
    token < s.nextToken
  }

  function Accepted(s: State, token: Token): State {
    s.(responses := s.responses + [Incoming(token)])
  }

  // ---------------------------------------------------------------- reader and dispatcher

  predicate CanReadResponse(s: State) {
    s.readerRunning && s.responses != []
  }

  function ReadOne(s: State): State
    requires CanReadResponse(s)
  {
    var r := s.responses[0];
    var awaited := r.Answer? && r.id in s.pending;
    s.(responses := s.responses[1..],
       events := if r.Incoming? then s.events + [r.token] else s.events,
       pending := if awaited then s.pending - {r.id} else s.pending,
       mail := if awaited then s.mail[r.id := Answered(r.outcome)] else s.mail)
  }

  predicate CanDispatch(s: State) {
    s.events != []
  }

  /** The connection goes to the session registered for its token, if there is one, and is closed otherwise. */
  function Dispatched(s: State): State
    requires CanDispatch(s)
  {
    s.(events := s.events[1..],
       deliveries := s.deliveries + [Delivery(s.events[0], Lookup(s.registrations, s.events[0]))])
  }

  predicate CanReaderStop(s: State) {
    s.readerRunning
  }

  /** The reader gives up and hands every registered waiter an error. */
  function ReaderStopped(s: State): State
    requires CanReaderStop(s)
  {
    s.(readerRunning := false, pending := map[],
       mail := s.mail + map id | id in s.pending :: ChannelClosed)
  }

  // ---------------------------------------------------------------- steps and runs

  predicate Enabled(s: State, step: Step) {
    match step
    case OpenSession => true
    case RequestForward(c, address, port) => CanRequestForward(s, c, address, port)
    case RequestOther(c) => CanRequestOther(s, c)
    case CancelHandle(c, key) => CanCancelHandle(s, c, key)
    case DropSession(c) => CanDropSession(s, c)
    case CloseSession(c) => CanCloseSession(s, c)
    case Unregister(t) => CanUnregister(s, t)
    case Enlist(t) => CanEnlist(s, t)
    case Send(t) => CanSend(s, t)
    case SendFails(t) => CanSend(s, t)
    case TakeRequest => CanTakeRequest(s)
    case Perform(outcome) => CanPerform(s, outcome)
    case SendResponse => CanSendResponse(s)
    case Accept(token) => CanAccept(s, token)
    case ReadResponse => CanReadResponse(s)
    case Dispatch => CanDispatch(s)
    case ReaderStops => CanReaderStop(s)
    case Register(t) => CanRegister(s, t)
    case Complete(t) => CanComplete(s, t)
    case StoreHandle(t) => CanStoreHandle(s, t)
  }

  function Apply(s: State, step: Step): State
    requires Enabled(s, step)
  {
    match step
    case OpenSession => OpenedSession(s)
    case RequestForward(c, address, port) => RequestedForward(s, c, address, port)
    case RequestOther(c) => RequestedOther(s, c)
    case CancelHandle(c, key) => CancelledHandle(s, c, key)
    case DropSession(c) => DroppedSession(s, c)
    case CloseSession(c) => ClosedSession(s, c)
    case Unregister(t) => Unregistered(s, t)
    case Enlist(t) => EnlistedCall(s, t)
    case Send(t) => Sent(s, t)
    case SendFails(t) => SendFailed(s, t)
    case TakeRequest => TookRequest(s)
    case Perform(outcome) => Performed(s, outcome)
    case SendResponse => SentResponse(s)
    case Accept(token) => Accepted(s, token)
    case ReadResponse => ReadOne(s)
    case Dispatch => Dispatched(s)
    case ReaderStops => ReaderStopped(s)
    case Register(t) => RegisteredForward(s, t)
    case Complete(t) => CompletedCall(s, t)
    case StoreHandle(t) => StoredHandle(s, t)
  }

  /** A run, newest step outermost. */
  datatype Run = Begin(gatewayPorts: bool) | Next(before: Run, step: Step)

  function Final(run: Run): State
    requires Legal(run)
    decreases run, 1
  {
    match run
    case Begin(gatewayPorts) => Initial(gatewayPorts)
    case Next(before, step) => Apply(Final(before), step)
  }

  predicate Legal(run: Run)
    decreases run, 0
  {
    match run
    case Begin(_) => true
    case Next(before, step) => Legal(before) && Enabled(Final(before), step)
  }
}
