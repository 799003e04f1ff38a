/**
 * Remote forwards (src/executor.rs, start_remote_forward and cancel_remote_forward on both sides,
 * dispatch_remote_forward_event; src/sshd.rs, tcpip_forward, cancel_tcpip_forward and the drop of a
 * handler): what every run keeps. ForwardOutcomes.dfy says what it means.
 *
 * The proof follows each token through its life. A ledger, which is a function of the run, gives every
 * token a fate, and `TokenOk` says what each fate means for the executor's listeners, the client's
 * registrations and the sessions' handles.
 */
module RemoteForwards {
  import opened Common
  import opened ExecutorProtocol
  import opened ExecutorCalls

  datatype Fate =
    | Opening(task: TaskId)                       // a forward call is in progress
    | Owned(session: SessionId, key: ForwardKey)  // in the handles of a session
    | Closing(task: TaskId)                       // a cancel call is in progress
    | Gone                                        // cancelled, or never bound
    | Lost                                        // its cancellation could not be sent
    | ForwardCut(id: ReqId)                       // the reader stopped while it was being bound
    | CancelCut(id: ReqId)                        // the reader stopped while it was being cancelled

  type Ledger = map<Token, Fate>

  function TokenOf(job: Job): Token {
    match job
    case Forward(_, _, _, token) => token
    case Cancel(token) => token
    case Other => NO_TOKEN
  }

  /** The fate that a call leaves its token with when it completes, unless it goes on to register it. */
  function FateOnCompletion(s: State, t: TaskId): Fate
    requires CanResume(s, t)
  {
    var id := s.tasks[t].phase.id;
    if s.mail[id].Answered? then Gone
    else if s.tasks[t].job.Forward? then ForwardCut(id)
    else CancelCut(id)
  }

  /** The ledger after one more step. */
  function Advance(s: State, ledger: Ledger, step: Step): Ledger
    requires Enabled(s, step)
  {
    match step
    case RequestForward(_, _, _) => ledger[s.nextToken := Opening(s.nextTask)]
    case CancelHandle(c, key) => ledger[s.sessions[c].handles[key] := Closing(s.nextTask)]
    case StoreHandle(t) =>
      var job := s.tasks[t].job;
      ledger[job.token := Owned(job.session, ForwardKey(job.address, s.tasks[t].phase.port))]
    case SendFails(t) =>
      var job := s.tasks[t].job;
      if job.Other? then ledger else ledger[job.token := if job.Cancel? then Lost else Gone]
    case Complete(t) =>
      if s.tasks[t].job.Other? then ledger else ledger[s.tasks[t].job.token := FateOnCompletion(s, t)]
    case _ => ledger
  }

  function LedgerOf(run: Run): Ledger
    requires Legal(run)
  {
    match run
    case Begin(_) => map[]
    case Next(before, step) => Advance(Final(before), LedgerOf(before), step)
  }

  // ---------------------------------------------------------------- what a fate means

  predicate Bound(s: State, id: ReqId) {
    id in s.computed && s.computed[id].BoundPort?
  }

  predicate ListensOn(s: State, token: Token, address: string, port: nat) {
    Lookup(s.listeners, token) == Some(BindAddr(BindHost(s.gatewayPorts, address), port))
  }

  predicate RegisteredRight(s: State, token: Token) {
    token in s.requestedBy && Lookup(s.registrations, token) == Some(s.requestedBy[token])
  }

  predicate OpeningOk(s: State, token: Token, task: Task) {
    && task.job.Forward? && task.job.token == token && Lookup(s.requestedBy, token) == Some(task.job.session)
    && match task.phase
       case Unregistering => false
       case Prepared(_) => token !in s.registrations && token !in s.listeners
       case Enlisted(_) => token !in s.registrations && token !in s.listeners
       case Waiting(id) =>
         && token !in s.registrations
         && (if Bound(s, id) then ListensOn(s, token, task.job.address, s.computed[id].port) else token !in s.listeners)
       case Listening(port) => RegisteredRight(s, token) && ListensOn(s, token, task.job.address, port)
  }

  predicate ClosingOk(s: State, token: Token, task: Task) {
    && task.job == Cancel(token)
    && match task.phase
       case Unregistering => RegisteredRight(s, token) && token in s.listeners
       case Prepared(_) => token !in s.registrations && token in s.listeners
       case Enlisted(_) => token !in s.registrations && token in s.listeners
       case Waiting(id) =>
         && token !in s.registrations
         && (if id in s.computed then s.computed[id] == Ok && token !in s.listeners else token in s.listeners)
       case Listening(_) => false
  }

  predicate OwnedOk(s: State, token: Token, c: SessionId, key: ForwardKey) {
    && c in s.sessions && Lookup(s.sessions[c].handles, key) == Some(token)
    && Lookup(s.requestedBy, token) == Some(c) && RegisteredRight(s, token)
    && ListensOn(s, token, key.address, key.port)
  }

  /** What the fate of a token means for the three maps. */
  predicate TokenOk(s: State, ledger: Ledger, token: Token) {
    if !(1 <= token < s.nextToken) then
      token !in s.registrations && token !in s.listeners && token !in ledger
    else
      && token in ledger
      && match ledger[token]
         case Opening(t) => t in s.tasks && OpeningOk(s, token, s.tasks[t])
         case Owned(c, key) => OwnedOk(s, token, c, key)
         case Closing(t) => t in s.tasks && ClosingOk(s, token, s.tasks[t])
         case Gone => token !in s.registrations && token !in s.listeners
         case Lost => token !in s.registrations && token in s.listeners
         case ForwardCut(id) =>
           && !s.readerRunning && token !in s.registrations && Lookup(s.about, id) == Some(token)
           && (token in s.listeners <==> Bound(s, id))
         case CancelCut(id) =>
           && !s.readerRunning && token !in s.registrations && Lookup(s.about, id) == Some(token)
           && (token in s.listeners <==> id !in s.computed)
  }

  /** A call and the session whose handler is in it know each other; its token is in its hands. */
  predicate CallerOk(s: State, ledger: Ledger, t: TaskId)
    requires t in s.tasks
  {
    var task := s.tasks[t];
    && t < s.nextTask
    && (task.caller.Some? ==> task.caller.value in s.sessions && s.sessions[task.caller.value].awaits == Some(t))
    && (task.job.Forward? ==>
          task.caller == Some(task.job.session) && 1 <= task.job.token < s.nextToken
          && Lookup(ledger, task.job.token) == Some(Opening(t)))
    && (task.job.Cancel? ==>
          1 <= task.job.token < s.nextToken && Lookup(ledger, task.job.token) == Some(Closing(t)))
    && (task.phase.Prepared? || task.phase.Enlisted? || task.phase.Waiting? ==>
          Lookup(s.about, task.phase.id) == Some(TokenOf(task.job)))
    && (task.job.Other? ==> !task.phase.Unregistering? && !task.phase.Listening?)
  }

  predicate HandlesOk(s: State, ledger: Ledger, c: SessionId)
    requires c in s.sessions
  {
    && c < s.nextSession
    && forall key | key in s.sessions[c].handles ::
         && 1 <= s.sessions[c].handles[key] < s.nextToken
         && Lookup(ledger, s.sessions[c].handles[key]) == Some(Owned(c, key))
  }

  predicate WaitsFor(s: State, t: TaskId, id: ReqId) {
    t in s.tasks && s.tasks[t].phase == Waiting(id)
  }

  /** A request under way concerns a token whose call waits for it, or was cut short. */
  predicate UnderWay(s: State, ledger: Ledger, r: Request) {
    match r
    case OtherRequest(id) => Lookup(s.about, id) == Some(NO_TOKEN)
    case StartRemoteForward(id, token, _) =>
      && 1 <= token < s.nextToken && token in ledger && Lookup(s.about, id) == Some(token)
      && (ledger[token] == ForwardCut(id) || (ledger[token].Opening? && WaitsFor(s, ledger[token].task, id)))
    case CancelRemoteForward(id, token) =>
      && 1 <= token < s.nextToken && token in ledger && Lookup(s.about, id) == Some(token)
      && (ledger[token] == CancelCut(id) || (ledger[token].Closing? && WaitsFor(s, ledger[token].task, id)))
  }

  /** The executor has not carried out the request yet. */
  predicate Queued(s: State, r: Request) {
    r in s.requests || s.working == Taken(r)
  }

  /** No two listeners share an address. */
  predicate Exclusive(listeners: map<Token, BindAddr>) {
    forall a, b | a in listeners && b in listeners && listeners[a] == listeners[b] :: a == b
  }

  ghost predicate ForwardsOk(s: State, ledger: Ledger) {
    && 1 <= s.nextToken && Exclusive(s.listeners)
    && (forall id | id in s.about :: id < s.nextId)
    && (forall token :: TokenOk(s, ledger, token))
    && (forall t | t in s.tasks :: CallerOk(s, ledger, t))
    && (forall c | c in s.sessions :: HandlesOk(s, ledger, c))
    && (forall r | Queued(s, r) :: UnderWay(s, ledger, r))
  }

  // ---------------------------------------------------------------- what a step does not touch

  /** From `s` to `s'` nothing changes but what belongs to call `t0`, session `c0` and token `k0`. */
  ghost predicate Apart(s: State, ledger: Ledger, s': State, after: Ledger, t0: TaskId, c0: SessionId, k0: Token) {
    && s'.gatewayPorts == s.gatewayPorts && s'.computed == s.computed && s'.listeners == s.listeners
    && (s'.readerRunning ==> s.readerRunning)
    && s.nextId <= s'.nextId && s.nextTask <= s'.nextTask && s.nextSession <= s'.nextSession
    && (s'.nextToken == s.nextToken || (k0 == s.nextToken && s'.nextToken == s.nextToken + 1))
    && (forall t | t != t0 :: Lookup(s'.tasks, t) == Lookup(s.tasks, t))
    && (forall c | c != c0 :: Lookup(s'.sessions, c) == Lookup(s.sessions, c))
    && (forall k | k != k0 :: Lookup(after, k) == Lookup(ledger, k))
    && (forall k | k != k0 :: Lookup(s'.registrations, k) == Lookup(s.registrations, k))
    && (forall k | k != k0 :: Lookup(s'.requestedBy, k) == Lookup(s.requestedBy, k))
    && (forall id | id in s.about :: Lookup(s'.about, id) == Some(s.about[id]))
    && (forall id | id in s'.about :: id < s'.nextId)
    && (forall key | c0 in s.sessions && key in s.sessions[c0].handles && s.sessions[c0].handles[key] != k0 ::
          c0 in s'.sessions && Lookup(s'.sessions[c0].handles, key) == Some(s.sessions[c0].handles[key]))
  }

  /** Whatever has to do with `t0`, `c0` or `k0` has to do with no other call, session or token. */
  predicate Together(s: State, ledger: Ledger, t0: TaskId, c0: SessionId, k0: Token) {
    && (t0 in s.tasks ==> s.tasks[t0].job.Other? || TokenOf(s.tasks[t0].job) == k0)
    && (c0 in s.sessions ==> s.sessions[c0].awaits.None? || s.sessions[c0].awaits == Some(t0))
    && (k0 in ledger ==>
          match ledger[k0]
          case Opening(t) => t == t0
          case Closing(t) => t == t0
          case Owned(c, _) => c == c0
          case _ => true)
  }

  /** A step that touches no more than this, and leaves it right. */
  ghost predicate Fits(s: State, ledger: Ledger, s': State, after: Ledger, t0: TaskId, c0: SessionId, k0: Token) {
    && Apart(s, ledger, s', after, t0, c0, k0) && Together(s, ledger, t0, c0, k0)
    && TokenOk(s', after, k0)
    && (t0 in s'.tasks ==> CallerOk(s', after, t0))
    && (c0 in s'.sessions ==> HandlesOk(s', after, c0))
  }

  predicate AboutToken(r: Request, k: Token) {
    !r.OtherRequest? && r.token == k
  }

  /** The request whose outcome the fate of a token depends on. */
  function RequestOfFate(s: State, f: Fate): Option<ReqId> {
    match f
    case Opening(t) => if t in s.tasks && s.tasks[t].phase.Waiting? then Some(s.tasks[t].phase.id) else None
    case Closing(t) => if t in s.tasks && s.tasks[t].phase.Waiting? then Some(s.tasks[t].phase.id) else None
    case ForwardCut(id) => Some(id)
    case CancelCut(id) => Some(id)
    case _ => None
  }

  /** A token is right if nothing changed that its fate speaks of. */
  lemma TokenStays(s: State, ledger: Ledger, s': State, after: Ledger, k: Token)
    requires TokenOk(s, ledger, k)
    requires 1 <= k < s.nextToken <==> 1 <= k < s'.nextToken
    requires Lookup(after, k) == Lookup(ledger, k) && Lookup(s'.registrations, k) == Lookup(s.registrations, k)
    requires Lookup(s'.requestedBy, k) == Lookup(s.requestedBy, k) && Lookup(s'.listeners, k) == Lookup(s.listeners, k)
    requires s'.gatewayPorts == s.gatewayPorts && (s'.readerRunning ==> s.readerRunning)
    requires k in ledger && (ledger[k].Opening? || ledger[k].Closing?) ==>
               Lookup(s'.tasks, ledger[k].task) == Lookup(s.tasks, ledger[k].task)
    requires k in ledger && ledger[k].Owned? && OwnedOk(s, k, ledger[k].session, ledger[k].key) ==>
               var c := ledger[k].session;
               c in s'.sessions && Lookup(s'.sessions[c].handles, ledger[k].key) == Some(k)
    requires k in ledger && RequestOfFate(s, ledger[k]).Some? ==>
               var id := RequestOfFate(s, ledger[k]).value;
               && Lookup(s'.computed, id) == Lookup(s.computed, id)
               && (Lookup(s.about, id) == Some(k) ==> Lookup(s'.about, id) == Some(k))
    ensures TokenOk(s', after, k)
  {
    if 1 <= k < s.nextToken {
      match ledger[k] {
        case Opening(t) => assert OpeningOk(s', k, s.tasks[t]);
        case Closing(t) => assert ClosingOk(s', k, s.tasks[t]);
        case Owned(c, key) => assert OwnedOk(s', k, c, key);
        case _ =>
      }
    }
  }

  lemma OtherTokensKeep(s: State, ledger: Ledger, s': State, after: Ledger, t0: TaskId, c0: SessionId, k0: Token, k: Token)
    requires Apart(s, ledger, s', after, t0, c0, k0) && Together(s, ledger, t0, c0, k0)
    requires TokenOk(s, ledger, k) && k != k0
    ensures TokenOk(s', after, k)
  {
    assert Lookup(after, k) == Lookup(ledger, k) && Lookup(s'.registrations, k) == Lookup(s.registrations, k);
    assert Lookup(s'.requestedBy, k) == Lookup(s.requestedBy, k);
    if k in ledger && (ledger[k].Opening? || ledger[k].Closing?) {
      assert Lookup(s'.tasks, ledger[k].task) == Lookup(s.tasks, ledger[k].task);
    }
    if k in ledger && ledger[k].Owned? {
      assert ledger[k].session != c0 ==> Lookup(s'.sessions, ledger[k].session) == Lookup(s.sessions, ledger[k].session);
    }
    TokenStays(s, ledger, s', after, k);
  }

  lemma OtherCallersKeep(s: State, ledger: Ledger, s': State, after: Ledger, t0: TaskId, c0: SessionId, k0: Token, t: TaskId)
    requires Apart(s, ledger, s', after, t0, c0, k0) && Together(s, ledger, t0, c0, k0)
    requires t in s.tasks && CallerOk(s, ledger, t) && t != t0
    ensures t in s'.tasks && CallerOk(s', after, t)
  {
    assert Lookup(s'.tasks, t) == Lookup(s.tasks, t);
    var task := s.tasks[t];
    if task.caller.Some? {
      assert Lookup(s'.sessions, task.caller.value) == Lookup(s.sessions, task.caller.value);
    }
    if !task.job.Other? {
      assert Lookup(after, task.job.token) == Lookup(ledger, task.job.token);
    }
  }

  lemma OtherHandlesKeep(s: State, ledger: Ledger, s': State, after: Ledger, t0: TaskId, c0: SessionId, k0: Token, c: SessionId)
    requires Apart(s, ledger, s', after, t0, c0, k0) && Together(s, ledger, t0, c0, k0)
    requires c in s.sessions && HandlesOk(s, ledger, c) && c != c0
    ensures c in s'.sessions && HandlesOk(s', after, c)
  {
    assert Lookup(s'.sessions, c) == Lookup(s.sessions, c);
  }

  lemma OtherRequestsKeep(s: State, ledger: Ledger, s': State, after: Ledger, t0: TaskId, c0: SessionId, k0: Token, r: Request)
    requires Apart(s, ledger, s', after, t0, c0, k0) && Together(s, ledger, t0, c0, k0)
    requires UnderWay(s, ledger, r) && !AboutToken(r, k0)
    requires r.OtherRequest? || TokenOk(s, ledger, r.token)
    ensures UnderWay(s', after, r)
  {
    if !r.OtherRequest? {
      assert Lookup(after, r.token) == Lookup(ledger, r.token);
      if ledger[r.token].Opening? || ledger[r.token].Closing? {
        assert Lookup(s'.tasks, ledger[r.token].task) == Lookup(s.tasks, ledger[r.token].task);
      }
    }
  }

  /** So a step keeps all forwards right if it keeps those right that it touches. */
  lemma StepIsLocal(s: State, ledger: Ledger, s': State, after: Ledger, t0: TaskId, c0: SessionId, k0: Token)
    requires ForwardsOk(s, ledger) && Fits(s, ledger, s', after, t0, c0, k0)
    requires forall r | Queued(s', r) && (!Queued(s, r) || AboutToken(r, k0)) :: UnderWay(s', after, r)
    ensures ForwardsOk(s', after)
  {
    forall k ensures TokenOk(s', after, k) {
      if k != k0 { OtherTokensKeep(s, ledger, s', after, t0, c0, k0, k); }
    }
    forall t | t in s'.tasks ensures CallerOk(s', after, t) {
      assert Lookup(s'.tasks, t).Some?;
      if t != t0 { OtherCallersKeep(s, ledger, s', after, t0, c0, k0, t); }
    }
    forall c | c in s'.sessions ensures HandlesOk(s', after, c) {
      assert Lookup(s'.sessions, c).Some?;
      if c != c0 { OtherHandlesKeep(s, ledger, s', after, t0, c0, k0, c); }
    }
    forall r | Queued(s', r) ensures UnderWay(s', after, r) {
      if Queued(s, r) && !AboutToken(r, k0) { OtherRequestsKeep(s, ledger, s', after, t0, c0, k0, r); }
    }
  }

  /** No request is under way about a token that no call waits for. */
  lemma NothingUnderWay(s: State, ledger: Ledger, k: Token)
    requires ForwardsOk(s, ledger)
    requires k in ledger ==>
               match ledger[k]
               case Opening(t) => t in s.tasks && !s.tasks[t].phase.Waiting?
               case Closing(t) => t in s.tasks && !s.tasks[t].phase.Waiting?
               case Owned(_, _) => true
               case _ => false
    ensures forall r | Queued(s, r) :: !AboutToken(r, k)
  {
    assert forall r | Queued(s, r) :: UnderWay(s, ledger, r);
  }

  // ---------------------------------------------------------------- every step keeps the forwards right

  /** What there is to know about the ids that come next. */
  ghost predicate NextFree(s: State, ledger: Ledger) {
    && s.nextTask !in s.tasks && s.nextSession !in s.sessions && s.nextToken !in ledger
    && (forall id | id in s.about :: id < s.nextId)
    && 1 <= s.nextToken && TokenOk(s, ledger, NO_TOKEN) && TokenOk(s, ledger, s.nextToken)
  }

  lemma NextAreFree(s: State, ledger: Ledger)
    requires ForwardsOk(s, ledger)
    ensures NextFree(s, ledger) && NO_TOKEN !in ledger
  {
    assert forall t | t in s.tasks :: CallerOk(s, ledger, t);
    assert forall c | c in s.sessions :: HandlesOk(s, ledger, c);
    assert TokenOk(s, ledger, s.nextToken) && TokenOk(s, ledger, NO_TOKEN);
  }

  lemma RequestForwardApart(s: State, ledger: Ledger, c: SessionId, address: string, port: nat)
    requires NextFree(s, ledger) && CanRequestForward(s, c, address, port)
    ensures Apart(s, ledger, RequestedForward(s, c, address, port), ledger[s.nextToken := Opening(s.nextTask)],
                  s.nextTask, c, s.nextToken)
  {
  }

  lemma RequestForwardFits(s: State, ledger: Ledger, c: SessionId, address: string, port: nat)
    requires NextFree(s, ledger) && CanRequestForward(s, c, address, port) && HandlesOk(s, ledger, c)
    ensures Fits(s, ledger, RequestedForward(s, c, address, port), ledger[s.nextToken := Opening(s.nextTask)],
                 s.nextTask, c, s.nextToken)
  {
    RequestForwardApart(s, ledger, c, address, port);
  }

  lemma RequestForwardKeeps(s: State, ledger: Ledger, c: SessionId, address: string, port: nat)
    requires ForwardsOk(s, ledger) && CanRequestForward(s, c, address, port)
    ensures ForwardsOk(RequestedForward(s, c, address, port), ledger[s.nextToken := Opening(s.nextTask)])
  {
    NextAreFree(s, ledger);
    NothingUnderWay(s, ledger, s.nextToken);
    RequestForwardFits(s, ledger, c, address, port);
    StepIsLocal(s, ledger, RequestedForward(s, c, address, port), ledger[s.nextToken := Opening(s.nextTask)],
                s.nextTask, c, s.nextToken);
  }

  lemma RequestOtherFits(s: State, ledger: Ledger, c: SessionId)
    requires NextFree(s, ledger) && CanRequestOther(s, c) && HandlesOk(s, ledger, c)
    ensures Fits(s, ledger, RequestedOther(s, c), ledger, s.nextTask, c, NO_TOKEN)
  {
  }

  lemma RequestOtherKeeps(s: State, ledger: Ledger, c: SessionId)
    requires ForwardsOk(s, ledger) && CanRequestOther(s, c)
    ensures ForwardsOk(RequestedOther(s, c), ledger)
  {
    NextAreFree(s, ledger);
    NothingUnderWay(s, ledger, NO_TOKEN);
    RequestOtherFits(s, ledger, c);
    StepIsLocal(s, ledger, RequestedOther(s, c), ledger, s.nextTask, c, NO_TOKEN);
  }

  lemma CancelHandleFits(s: State, ledger: Ledger, c: SessionId, key: ForwardKey)
    requires NextFree(s, ledger) && CanCancelHandle(s, c, key) && HandlesOk(s, ledger, c)
    requires TokenOk(s, ledger, s.sessions[c].handles[key])
    ensures var token := s.sessions[c].handles[key];
            Fits(s, ledger, CancelledHandle(s, c, key), ledger[token := Closing(s.nextTask)], s.nextTask, c, token)
  {
  }

  lemma CancelHandleKeeps(s: State, ledger: Ledger, c: SessionId, key: ForwardKey)
    requires ForwardsOk(s, ledger) && CanCancelHandle(s, c, key)
    ensures ForwardsOk(CancelledHandle(s, c, key), ledger[s.sessions[c].handles[key] := Closing(s.nextTask)])
  {
    var token := s.sessions[c].handles[key];
    NextAreFree(s, ledger);
    assert HandlesOk(s, ledger, c);
    NothingUnderWay(s, ledger, token);
    CancelHandleFits(s, ledger, c, key);
    StepIsLocal(s, ledger, CancelledHandle(s, c, key), ledger[token := Closing(s.nextTask)], s.nextTask, c, token);
  }

  lemma UnregisterFits(s: State, ledger: Ledger, t: TaskId)
    requires NextFree(s, ledger) && CanUnregister(s, t)
    requires CallerOk(s, ledger, t) && TokenOk(s, ledger, TokenOf(s.tasks[t].job))
    ensures Fits(s, ledger, Unregistered(s, t), ledger, t, s.nextSession, TokenOf(s.tasks[t].job))
  {
  }

  lemma EnlistFits(s: State, ledger: Ledger, t: TaskId)
    requires NextFree(s, ledger) && CanEnlist(s, t)
    requires CallerOk(s, ledger, t) && TokenOk(s, ledger, TokenOf(s.tasks[t].job))
    ensures Fits(s, ledger, EnlistedCall(s, t), ledger, t, s.nextSession, TokenOf(s.tasks[t].job))
  {
  }

  lemma SendFits(s: State, ledger: Ledger, t: TaskId)
    requires NextFree(s, ledger) && CanSend(s, t) && s.tasks[t].phase.id !in s.computed
    requires CallerOk(s, ledger, t) && TokenOk(s, ledger, TokenOf(s.tasks[t].job))
    ensures Fits(s, ledger, Sent(s, t), ledger, t, s.nextSession, TokenOf(s.tasks[t].job))
  {
  }

  lemma UnregisterKeeps(s: State, ledger: Ledger, t: TaskId)
    requires ForwardsOk(s, ledger) && CanUnregister(s, t)
    ensures ForwardsOk(Unregistered(s, t), ledger)
  {
    NextAreFree(s, ledger);
    CallIsQuiet(s, ledger, t);
    UnregisterFits(s, ledger, t);
    StepIsLocal(s, ledger, Unregistered(s, t), ledger, t, s.nextSession, s.tasks[t].job.token);
  }

  lemma EnlistKeeps(s: State, ledger: Ledger, t: TaskId)
    requires ForwardsOk(s, ledger) && CanEnlist(s, t)
    ensures ForwardsOk(EnlistedCall(s, t), ledger)
  {
    NextAreFree(s, ledger);
    CallIsQuiet(s, ledger, t);
    EnlistFits(s, ledger, t);
    StepIsLocal(s, ledger, EnlistedCall(s, t), ledger, t, s.nextSession, TokenOf(s.tasks[t].job));
  }

  lemma NewRequestIsUnderWay(s: State, ledger: Ledger, t: TaskId)
    requires CanSend(s, t) && CallerOk(s, ledger, t) && TokenOk(s, ledger, TokenOf(s.tasks[t].job))
    ensures UnderWay(Sent(s, t), ledger, RequestOf(s, s.tasks[t]))
  {
  }

  lemma SendKeeps(s: State, ledger: Ledger, t: TaskId)
    requires ForwardsOk(s, ledger) && CanSend(s, t) && s.tasks[t].phase.id !in s.computed
    ensures ForwardsOk(Sent(s, t), ledger)
  {
    NextAreFree(s, ledger);
    CallIsQuiet(s, ledger, t);
    SendFits(s, ledger, t);
    NewRequestIsUnderWay(s, ledger, t);
    StepIsLocal(s, ledger, Sent(s, t), ledger, t, s.nextSession, TokenOf(s.tasks[t].job));
  }

  /** No request is under way about the token of a call that does not wait. */
  lemma CallIsQuiet(s: State, ledger: Ledger, t: TaskId)
    requires ForwardsOk(s, ledger) && t in s.tasks && !s.tasks[t].phase.Waiting?
    ensures CallerOk(s, ledger, t) && TokenOk(s, ledger, TokenOf(s.tasks[t].job))
    ensures forall r | Queued(s, r) :: !AboutToken(r, TokenOf(s.tasks[t].job))
  {
    NextAreFree(s, ledger);
    assert CallerOk(s, ledger, t);
    NothingUnderWay(s, ledger, TokenOf(s.tasks[t].job));
  }

  /** The session that waits for a call, or one that does not exist. */
  function CallerOf(s: State, t: TaskId): SessionId
    requires t in s.tasks
  {
    if s.tasks[t].caller.Some? then s.tasks[t].caller.value else s.nextSession
  }

  /** A call that ends touches its token and frees its caller. */
  ghost predicate Ends(s: State, ledger: Ledger, t: TaskId, s': State, after: Ledger, f: Fate)
    requires t in s.tasks
  {
    && s'.tasks == s.tasks - {t} && s'.sessions == FreedSessions(s.sessions, s.tasks[t].caller)
    && s'.listeners == s.listeners && s'.registrations == s.registrations && s'.requestedBy == s.requestedBy
    && s'.about == s.about && s'.computed == s.computed && s'.gatewayPorts == s.gatewayPorts
    && s'.readerRunning == s.readerRunning && s'.nextId == s.nextId
    && s'.nextToken == s.nextToken && s'.nextTask == s.nextTask && s'.nextSession == s.nextSession
    && after == if s.tasks[t].job.Other? then ledger else ledger[s.tasks[t].job.token := f]
  }

  lemma EndIsApart(s: State, ledger: Ledger, t: TaskId, s': State, after: Ledger, f: Fate)
    requires NextFree(s, ledger) && t in s.tasks && Ends(s, ledger, t, s', after, f)
    ensures Apart(s, ledger, s', after, t, CallerOf(s, t), TokenOf(s.tasks[t].job))
  {
  }

  lemma EndFreesCaller(s: State, ledger: Ledger, t: TaskId, s': State, after: Ledger, f: Fate)
    requires NextFree(s, ledger) && t in s.tasks && CallerOk(s, ledger, t) && Ends(s, ledger, t, s', after, f)
    requires CallerOf(s, t) in s.sessions ==> HandlesOk(s, ledger, CallerOf(s, t))
    ensures Together(s, ledger, t, CallerOf(s, t), TokenOf(s.tasks[t].job))
    ensures CallerOf(s, t) in s'.sessions ==> HandlesOk(s', after, CallerOf(s, t))
  {
  }

  lemma SendFailsFits(s: State, ledger: Ledger, t: TaskId)
    requires NextFree(s, ledger) && CanSend(s, t) && CallerOk(s, ledger, t) && TokenOk(s, ledger, TokenOf(s.tasks[t].job))
    requires CallerOf(s, t) in s.sessions ==> HandlesOk(s, ledger, CallerOf(s, t))
    ensures Fits(s, ledger, SendFailed(s, t), Advance(s, ledger, SendFails(t)), t, CallerOf(s, t), TokenOf(s.tasks[t].job))
  {
    var s', after, f := SendFailed(s, t), Advance(s, ledger, SendFails(t)), if s.tasks[t].job.Cancel? then Lost else Gone;
    EndIsApart(s, ledger, t, s', after, f);
    EndFreesCaller(s, ledger, t, s', after, f);
  }

  lemma SendFailsKeeps(s: State, ledger: Ledger, t: TaskId)
    requires ForwardsOk(s, ledger) && CanSend(s, t)
    ensures ForwardsOk(SendFailed(s, t), Advance(s, ledger, SendFails(t)))
  {
    NextAreFree(s, ledger);
    CallIsQuiet(s, ledger, t);
    SendFailsFits(s, ledger, t);
    StepIsLocal(s, ledger, SendFailed(s, t), Advance(s, ledger, SendFails(t)), t, CallerOf(s, t), TokenOf(s.tasks[t].job));
  }

  function KeyOf(task: Task): ForwardKey
    requires task.job.Forward? && task.phase.Listening?
  {
    ForwardKey(task.job.address, task.phase.port)
  }

  /** The key under which a forward is stored names no other forward: its listener would be bound twice. */
  lemma NewKeyIsFree(s: State, ledger: Ledger, t: TaskId)
    requires ForwardsOk(s, ledger) && CanStoreHandle(s, t)
    ensures KeyOf(s.tasks[t]) !in s.sessions[s.tasks[t].job.session].handles
  {
    var job := s.tasks[t].job;
    var handles, key := s.sessions[job.session].handles, KeyOf(s.tasks[t]);
    assert CallerOk(s, ledger, t) && TokenOk(s, ledger, job.token) && HandlesOk(s, ledger, job.session);
    assert key in handles ==> TokenOk(s, ledger, handles[key]);
  }

  lemma StoreHandleFits(s: State, ledger: Ledger, t: TaskId)
    requires NextFree(s, ledger) && CanStoreHandle(s, t) && CallerOk(s, ledger, t) && TokenOk(s, ledger, s.tasks[t].job.token)
    requires HandlesOk(s, ledger, s.tasks[t].job.session)
    requires KeyOf(s.tasks[t]) !in s.sessions[s.tasks[t].job.session].handles
    ensures Fits(s, ledger, StoredHandle(s, t), Advance(s, ledger, StoreHandle(t)), t, s.tasks[t].job.session, s.tasks[t].job.token)
  {
  }

  lemma StoreHandleKeeps(s: State, ledger: Ledger, t: TaskId)
    requires ForwardsOk(s, ledger) && CanStoreHandle(s, t)
    ensures ForwardsOk(StoredHandle(s, t), Advance(s, ledger, StoreHandle(t)))
  {
    var job := s.tasks[t].job;
    NextAreFree(s, ledger);
    NewKeyIsFree(s, ledger, t);
    CallIsQuiet(s, ledger, t);
    assert HandlesOk(s, ledger, job.session);
    StoreHandleFits(s, ledger, t);
    StepIsLocal(s, ledger, StoredHandle(s, t), Advance(s, ledger, StoreHandle(t)), t, job.session, job.token);
  }

  /** A completion is what was computed, and then its request is not under way any more. */
  lemma CompletionIsGenuine(s: State, ledger: Ledger, t: TaskId)
    requires CallsOk(s) && ForwardsOk(s, ledger) && CanResume(s, t)
    ensures Genuine(s, s.tasks[t].phase.id, s.mail[s.tasks[t].phase.id])
    ensures CallerOk(s, ledger, t) && TokenOk(s, ledger, TokenOf(s.tasks[t].job))
    ensures forall r | Queued(s, r) && AboutToken(r, TokenOf(s.tasks[t].job)) ::
              UnderWay(s, ledger, r) && s.mail[s.tasks[t].phase.id].ChannelClosed?
  {
    NextAreFree(s, ledger);
    var id := s.tasks[t].phase.id;
    assert TaskOk(s, t) && IdOk(s, Flight(s), id) && CallerOk(s, ledger, t);
    forall r | Queued(s, r) && AboutToken(r, TokenOf(s.tasks[t].job)) ensures UnderWay(s, ledger, r) && r.id == id {
      assert UnderWay(s, ledger, r);
    }
  }

  lemma RegisterFits(s: State, ledger: Ledger, t: TaskId)
    requires NextFree(s, ledger) && CanRegister(s, t) && CallerOk(s, ledger, t) && TokenOk(s, ledger, s.tasks[t].job.token)
    requires Genuine(s, s.tasks[t].phase.id, s.mail[s.tasks[t].phase.id])
    ensures Fits(s, ledger, RegisteredForward(s, t), ledger, t, s.nextSession, s.tasks[t].job.token)
  {
  }

  lemma RegisterKeeps(s: State, ledger: Ledger, t: TaskId)
    requires CallsOk(s) && ForwardsOk(s, ledger) && CanRegister(s, t)
    ensures ForwardsOk(RegisteredForward(s, t), ledger)
  {
    NextAreFree(s, ledger);
    CompletionIsGenuine(s, ledger, t);
    RegisterFits(s, ledger, t);
    StepIsLocal(s, ledger, RegisteredForward(s, t), ledger, t, s.nextSession, s.tasks[t].job.token);
  }

  lemma CompleteFits(s: State, ledger: Ledger, t: TaskId)
    requires NextFree(s, ledger) && CanComplete(s, t) && CallerOk(s, ledger, t) && TokenOk(s, ledger, TokenOf(s.tasks[t].job))
    requires Genuine(s, s.tasks[t].phase.id, s.mail[s.tasks[t].phase.id])
    requires CallerOf(s, t) in s.sessions ==> HandlesOk(s, ledger, CallerOf(s, t))
    ensures Fits(s, ledger, CompletedCall(s, t), Advance(s, ledger, Complete(t)), t, CallerOf(s, t), TokenOf(s.tasks[t].job))
  {
    var s', after, f := CompletedCall(s, t), Advance(s, ledger, Complete(t)), FateOnCompletion(s, t);
    EndIsApart(s, ledger, t, s', after, f);
    EndFreesCaller(s, ledger, t, s', after, f);
  }

  /** A request whose call is cut short is under way still, on its own. */
  lemma CutRequestGoesOn(s: State, ledger: Ledger, t: TaskId, r: Request)
    requires CanComplete(s, t) && CallerOk(s, ledger, t) && s.mail[s.tasks[t].phase.id].ChannelClosed?
    requires UnderWay(s, ledger, r) && AboutToken(r, TokenOf(s.tasks[t].job))
    ensures UnderWay(CompletedCall(s, t), Advance(s, ledger, Complete(t)), r)
  {
  }

  lemma CompleteKeeps(s: State, ledger: Ledger, t: TaskId)
    requires CallsOk(s) && ForwardsOk(s, ledger) && CanComplete(s, t)
    ensures ForwardsOk(CompletedCall(s, t), Advance(s, ledger, Complete(t)))
  {
    var token := TokenOf(s.tasks[t].job);
    NextAreFree(s, ledger);
    CompletionIsGenuine(s, ledger, t);
    CompleteFits(s, ledger, t);
    forall r | Queued(s, r) && AboutToken(r, token)
      ensures UnderWay(CompletedCall(s, t), Advance(s, ledger, Complete(t)), r)
    {
      CutRequestGoesOn(s, ledger, t, r);
    }
    StepIsLocal(s, ledger, CompletedCall(s, t), Advance(s, ledger, Complete(t)), t, CallerOf(s, t), token);
  }

  /** Steps of queues and reader touch no call and no token. */
  lemma QuietStepKeeps(s: State, ledger: Ledger, s': State)
    requires ForwardsOk(s, ledger)
    requires s'.tasks == s.tasks && s'.sessions == s.sessions && s'.listeners == s.listeners
    requires s'.registrations == s.registrations && s'.requestedBy == s.requestedBy && s'.about == s.about
    requires s'.computed == s.computed && s'.gatewayPorts == s.gatewayPorts && s'.nextId == s.nextId
    requires s'.nextToken == s.nextToken && s'.nextTask == s.nextTask && s'.nextSession == s.nextSession
    requires s'.readerRunning ==> s.readerRunning
    requires forall r | Queued(s', r) :: Queued(s, r)
    ensures ForwardsOk(s', ledger)
  {
    NextAreFree(s, ledger);
    NothingUnderWay(s, ledger, NO_TOKEN);
    StepIsLocal(s, ledger, s', ledger, s.nextTask, s.nextSession, NO_TOKEN);
  }

  lemma QueueStepKeeps(s: State, ledger: Ledger, step: Step)
    requires ForwardsOk(s, ledger) && Enabled(s, step)
    requires step.TakeRequest? || step.SendResponse? || step.Accept? || step.ReadResponse? || step.Dispatch? || step.ReaderStops?
    ensures ForwardsOk(Apply(s, step), ledger)
  {
    match step {
      case TakeRequest => QuietStepKeeps(s, ledger, TookRequest(s));
      case SendResponse => QuietStepKeeps(s, ledger, SentResponse(s));
      case Accept(token) => QuietStepKeeps(s, ledger, Accepted(s, token));
      case ReadResponse => QuietStepKeeps(s, ledger, ReadOne(s));
      case Dispatch => QuietStepKeeps(s, ledger, Dispatched(s));
      case ReaderStops => QuietStepKeeps(s, ledger, ReaderStopped(s));
    }
  }

  lemma SessionStepFits(s: State, ledger: Ledger, c: SessionId, s': State)
    requires NextFree(s, ledger) && (c in s.sessions ==> HandlesOk(s, ledger, c) && s.sessions[c].awaits.None?)
    requires s'.tasks == s.tasks && s'.listeners == s.listeners
    requires s'.registrations == s.registrations && s'.requestedBy == s.requestedBy && s'.about == s.about
    requires s'.computed == s.computed && s'.gatewayPorts == s.gatewayPorts && s'.nextId == s.nextId
    requires s'.nextToken == s.nextToken && s'.nextTask == s.nextTask && s'.nextSession >= s.nextSession
    requires s'.readerRunning == s.readerRunning
    requires forall d | d != c :: Lookup(s'.sessions, d) == Lookup(s.sessions, d)
    requires if c in s.sessions then s.sessions[c].handles == (if c in s'.sessions then s'.sessions[c].handles else map[])
             else c in s'.sessions ==> s'.sessions[c].handles == map[] && c < s'.nextSession
    ensures Fits(s, ledger, s', ledger, s.nextTask, c, NO_TOKEN)
  {
  }

  lemma SessionStepKeeps(s: State, ledger: Ledger, step: Step)
    requires ForwardsOk(s, ledger) && Enabled(s, step)
    requires step.OpenSession? || step.DropSession? || step.CloseSession?
    ensures ForwardsOk(Apply(s, step), ledger)
  {
    var s', c := Apply(s, step), if step.OpenSession? then s.nextSession else step.session;
    NextAreFree(s, ledger);
    NothingUnderWay(s, ledger, NO_TOKEN);
    SessionStepFits(s, ledger, c, s');
    StepIsLocal(s, ledger, s', ledger, s.nextTask, c, NO_TOKEN);
  }

  lemma PerformOtherToken(s: State, ledger: Ledger, outcome: Outcome, token: Token)
    requires CanPerform(s, outcome) && TokenOk(s, ledger, token)
    requires Lookup(s.about, s.working.request.id).Some? && s.about[s.working.request.id] != token
    requires s.working.request.OtherRequest? || s.about[s.working.request.id] == s.working.request.token
    requires token in ledger && (ledger[token].Opening? || ledger[token].Closing?) && ledger[token].task in s.tasks ==>
               CallerOk(s, ledger, ledger[token].task)
    ensures TokenOk(Performed(s, outcome), ledger, token)
  {
    var s' := Performed(s, outcome);
    assert Lookup(s'.listeners, token) == Lookup(s.listeners, token);
    TokenStays(s, ledger, s', ledger, token);
  }

  /** The executor binds or closes the listener of the one token that the request is about. */
  lemma PerformToken(s: State, ledger: Ledger, outcome: Outcome, token: Token)
    requires CanPerform(s, outcome) && s.working.request.id !in s.computed
    requires UnderWay(s, ledger, s.working.request) && TokenOk(s, ledger, token)
    requires AboutToken(s.working.request, token)
    requires forall t | t in s.tasks && s.tasks[t].phase == Waiting(s.working.request.id) ::
               s.working.request == RequestOf(s, s.tasks[t])
    ensures TokenOk(Performed(s, outcome), ledger, token)
  {
    var s' := Performed(s, outcome);
    match ledger[token] {
      case Opening(t) => assert OpeningOk(s', token, s.tasks[t]);
      case Closing(t) => assert ClosingOk(s', token, s.tasks[t]);
      case ForwardCut(_) =>
      case CancelCut(_) =>
    }
  }

  lemma PerformKeeps(s: State, ledger: Ledger, outcome: Outcome)
    requires RequestsOk(s) && ForwardsOk(s, ledger) && CanPerform(s, outcome) && s.working.request.id !in s.computed
    ensures ForwardsOk(Performed(s, outcome), ledger)
  {
    var s', request := Performed(s, outcome), s.working.request;
    assert Queued(s, request) && UnderWay(s, ledger, request);
    forall token: Token ensures TokenOk(s', ledger, token) {
      assert TokenOk(s, ledger, token);
      if AboutToken(request, token) {
        PerformToken(s, ledger, outcome, token);
      } else if token != NO_TOKEN {
        PerformOtherToken(s, ledger, outcome, token);
      }
    }
    forall t | t in s'.tasks ensures CallerOk(s', ledger, t) {
      assert CallerOk(s, ledger, t);
    }
    forall c | c in s'.sessions ensures HandlesOk(s', ledger, c) {
      assert HandlesOk(s, ledger, c);
    }
    forall r | Queued(s', r) ensures UnderWay(s', ledger, r) {
      assert Queued(s, r) && UnderWay(s, ledger, r);
    }
  }

  lemma CallStepKeeps(s: State, ledger: Ledger, step: Step)
    requires CallsOk(s) && ForwardsOk(s, ledger) && Enabled(s, step)
    requires step.Unregister? || step.Enlist? || step.Send? || step.Perform? || step.Register?
    ensures ForwardsOk(Apply(s, step), ledger)
  {
    match step {
      case Unregister(t) => UnregisterKeeps(s, ledger, t);
      case Enlist(t) => EnlistKeeps(s, ledger, t);
      case Send(t) =>
        assert TaskOk(s, t) && IdOk(s, Flight(s), s.tasks[t].phase.id);
        SendKeeps(s, ledger, t);
      case Perform(outcome) => PerformKeeps(s, ledger, outcome);
      case Register(t) => RegisterKeeps(s, ledger, t);
    }
  }

  lemma StepKeepsForwards(s: State, ledger: Ledger, step: Step)
    requires CallsOk(s) && ForwardsOk(s, ledger) && Enabled(s, step)
    ensures ForwardsOk(Apply(s, step), Advance(s, ledger, step))
  {
    match step {
      case OpenSession => SessionStepKeeps(s, ledger, step);
      case DropSession(_) => SessionStepKeeps(s, ledger, step);
      case CloseSession(_) => SessionStepKeeps(s, ledger, step);
      case RequestForward(c, address, port) => RequestForwardKeeps(s, ledger, c, address, port);
      case RequestOther(c) => RequestOtherKeeps(s, ledger, c);
      case CancelHandle(c, key) => CancelHandleKeeps(s, ledger, c, key);
      case StoreHandle(t) => StoreHandleKeeps(s, ledger, t);
      case SendFails(t) => SendFailsKeeps(s, ledger, t);
      case Complete(t) => CompleteKeeps(s, ledger, t);
      case Unregister(_) => CallStepKeeps(s, ledger, step);
      case Enlist(_) => CallStepKeeps(s, ledger, step);
      case Send(_) => CallStepKeeps(s, ledger, step);
      case Perform(_) => CallStepKeeps(s, ledger, step);
      case Register(_) => CallStepKeeps(s, ledger, step);
      case TakeRequest => QueueStepKeeps(s, ledger, step);
      case SendResponse => QueueStepKeeps(s, ledger, step);
      case Accept(_) => QueueStepKeeps(s, ledger, step);
      case ReadResponse => QueueStepKeeps(s, ledger, step);
      case Dispatch => QueueStepKeeps(s, ledger, step);
      case ReaderStops => QueueStepKeeps(s, ledger, step);
    }
  }

  lemma {:induction false} RunKeepsForwards(run: Run)
    requires Legal(run)
    ensures ForwardsOk(Final(run), LedgerOf(run))
  {
    if run.Next? {
      RunKeepsForwards(run.before);
      RunKeepsCalls(run.before);
      StepKeepsForwards(Final(run.before), LedgerOf(run.before), run.step);
    }
  }
}
