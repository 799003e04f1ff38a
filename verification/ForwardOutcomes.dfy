/**
 * What the life of remote forwards comes to on a run (src/executor.rs, src/sshd.rs): when the executor's
 * listeners, the client's registrations and the sessions' handles agree, which listeners are leaked
 * otherwise, and where a connection to a forward goes.
 */
module ForwardOutcomes {
  import opened Common
  import opened ExecutorProtocol
  import opened ExecutorCalls
  import opened RemoteForwards

  // ---------------------------------------------------------------- leaks

  /** A cancellation of the token could not be sent. */
  predicate CancelFailed(run: Run, token: Token)
    requires Legal(run)
  {
    run.Next?
    && (|| (run.step.SendFails? && Final(run.before).tasks[run.step.task].job == Cancel(token))
        || CancelFailed(run.before, token))
  }

  /** The bind request of the token whose call was ended by the drain, if there is one. */
  function BindCutShort(run: Run, token: Token): Option<ReqId>
    requires Legal(run)
  {
    match run
    case Begin(_) => None
    case Next(before, step) =>
      if step.Complete? && CutsBind(Final(before), step.task, token) then Some(Final(before).tasks[step.task].phase.id)
      else BindCutShort(before, token)
  }

  predicate CutsBind(s: State, t: TaskId, token: Token)
    requires CanComplete(s, t)
  {
    s.tasks[t].job.Forward? && s.tasks[t].job.token == token && s.mail[s.tasks[t].phase.id].ChannelClosed?
  }

  /** The executor bound the token for a call that will never hear of it. */
  predicate HeldByStranded(s: State, t: TaskId, token: Token) {
    Stranded(s, t) && s.tasks[t].job.Forward? && s.tasks[t].job.token == token && Bound(s, s.tasks[t].phase.id)
  }

  /**
   * The token's listener is leaked: its cancellation could not be sent; or the drain ended the call for it
   * and the executor bound it all the same, before or after; or the executor bound it for a call that
   * entered after the drain and waits for ever.
   */
  predicate Leaked(run: Run, token: Token)
    requires Legal(run)
  {
    || CancelFailed(run, token)
    || (BindCutShort(run, token).Some? && Bound(Final(run), BindCutShort(run, token).value))
    || (exists t | t in Final(run).tasks :: HeldByStranded(Final(run), t, token))
  }

  predicate IsFinal(f: Fate) {
    f.Gone? || f.Lost? || f.ForwardCut? || f.CancelCut?
  }

  /** A step changes the fate of the token it is about, and of none that met its end. */
  lemma FateChanges(s: State, ledger: Ledger, step: Step, token: Token)
    requires ForwardsOk(s, ledger) && Enabled(s, step)
    ensures token in ledger && IsFinal(ledger[token]) ==> Lookup(Advance(s, ledger, step), token) == Some(ledger[token])
    ensures Lookup(Advance(s, ledger, step), token) == Some(Lost) <==>
              || Lookup(ledger, token) == Some(Lost)
              || (step.SendFails? && s.tasks[step.task].job == Cancel(token))
    ensures forall id: ReqId :: Lookup(Advance(s, ledger, step), token) == Some(ForwardCut(id)) <==>
              || Lookup(ledger, token) == Some(ForwardCut(id))
              || (step.Complete? && CutsBind(s, step.task, token) && s.tasks[step.task].phase.id == id)
    ensures forall id: ReqId :: Lookup(Advance(s, ledger, step), token) == Some(CancelCut(id)) ==>
              || Lookup(ledger, token) == Some(CancelCut(id))
              || (step.Complete? && s.tasks[step.task].phase == Waiting(id))
  {
    match step {
      case RequestForward(_, _, _) => NextAreFree(s, ledger);
      case CancelHandle(c, key) => assert HandlesOk(s, ledger, c);
      case StoreHandle(t) => assert CallerOk(s, ledger, t);
      case SendFails(t) => assert CallerOk(s, ledger, t);
      case Complete(t) => assert CallerOk(s, ledger, t);
      case _ =>
    }
  }

  /** The ledger records what happened. */
  lemma {:induction false} LedgerIsHistory(run: Run, token: Token)
    requires Legal(run)
    ensures Lookup(LedgerOf(run), token) == Some(Lost) <==> CancelFailed(run, token)
    ensures forall id: ReqId :: Lookup(LedgerOf(run), token) == Some(ForwardCut(id)) <==> BindCutShort(run, token) == Some(id)
  {
    if run.Next? {
      LedgerIsHistory(run.before, token);
      RunKeepsForwards(run.before);
      FateChanges(Final(run.before), LedgerOf(run.before), run.step, token);
    }
  }

  ghost function HandleTokens(s: State): set<Token> {
    set c, key | c in s.sessions && key in s.sessions[c].handles :: s.sessions[c].handles[key]
  }

  lemma HandlesAreOwned(s: State, ledger: Ledger, token: Token)
    requires ForwardsOk(s, ledger)
    ensures token in HandleTokens(s) <==> token in ledger && ledger[token].Owned?
  {
    assert TokenOk(s, ledger, token);
    if token in HandleTokens(s) {
      var c, key :| c in s.sessions && key in s.sessions[c].handles && s.sessions[c].handles[key] == token;
      assert HandlesOk(s, ledger, c);
    }
  }

  lemma StrandedHoldIsUnknown(s: State, ledger: Ledger, t: TaskId, token: Token)
    requires ForwardsOk(s, ledger) && HeldByStranded(s, t, token)
    ensures Lookup(ledger, token) == Some(Opening(t)) && token in s.listeners && token !in s.registrations
  {
    assert CallerOk(s, ledger, t) && TokenOk(s, ledger, token);
  }

  /** At every moment of every run, a leaked listener is bound, and no session and no registration knows it. */
  lemma LeakedIsUnknown(run: Run, token: Token)
    requires Legal(run) && Leaked(run, token)
    ensures var s := Final(run); token in s.listeners && token !in s.registrations && token !in HandleTokens(s)
  {
    var s, ledger := Final(run), LedgerOf(run);
    RunKeepsForwards(run);
    LedgerIsHistory(run, token);
    HandlesAreOwned(s, ledger, token);
    assert TokenOk(s, ledger, token);
    if t :| t in s.tasks && HeldByStranded(s, t, token) {
      StrandedHoldIsUnknown(s, ledger, t, token);
    }
  }

  /** And it stays so: no continuation gets rid of it. */
  lemma {:induction false} LeakIsForGood(later: Run, earlier: Run, token: Token)
    requires Legal(later) && Continues(later, earlier) && Legal(earlier)
    requires Leaked(earlier, token)
    ensures Leaked(later, token)
  {
    if later != earlier {
      LeakIsForGood(later.before, earlier, token);
      LeakStays(later.before, later.step, token);
    }
  }

  lemma LeakStays(run: Run, step: Step, token: Token)
    requires Legal(run) && Enabled(Final(run), step) && Leaked(run, token)
    ensures Leaked(Next(run, step), token)
  {
    RunKeepsCalls(run);
    RecordsStandAfter(Final(run), step);
    if t :| t in Final(run).tasks && HeldByStranded(Final(run), t, token) {
      OverdueStays(Final(run), step, t);
      StrandedHoldStays(Final(run), Final(Next(run, step)), t, token);
      assert t in Final(Next(run, step)).tasks;
    } else {
      RecordedLeakStays(run, step, token);
    }
  }

  lemma RecordedLeakStays(run: Run, step: Step, token: Token)
    requires Legal(run) && Enabled(Final(run), step) && RecordsStand(Final(run), Apply(Final(run), step))
    requires CancelFailed(run, token) || (BindCutShort(run, token).Some? && Bound(Final(run), BindCutShort(run, token).value))
    ensures Leaked(Next(run, step), token)
  {
    LedgerIsHistory(run, token);
    LedgerIsHistory(Next(run, step), token);
    RunKeepsForwards(run);
    FateChanges(Final(run), LedgerOf(run), step, token);
  }

  lemma StrandedHoldStays(s: State, s': State, t: TaskId, token: Token)
    requires HeldByStranded(s, t, token) && RecordsStand(s, s')
    requires Overdue(s', t) && s'.tasks[t] == s.tasks[t]
    ensures HeldByStranded(s', t, token)
  {
  }

  /** The executor has carried out every request. */
  predicate ExecutorIdle(s: State) {
    s.requests == [] && !s.working.Taken?
  }

  /** The executor has the request, or has carried it out. */
  predicate Handed(s: State, id: ReqId) {
    id in s.computed || id in RequestIds(s.requests) || (s.working.Taken? && s.working.request.id == id)
  }

  lemma HandedStays(s: State, step: Step, id: ReqId)
    requires Enabled(s, step) && Handed(s, id)
    ensures Handed(Apply(s, step), id)
  {
    if step.Send? {
      RequestIdsAppend(s.requests, RequestOf(s, s.tasks[step.task]));
    } else if step.TakeRequest? {
      assert RequestIds(s.requests) == [s.requests[0].id] + RequestIds(s.requests[1..]);
    }
  }

  /** Only sending makes a call wait. */
  lemma OnlySendWaits(s: State, step: Step, t: TaskId)
    requires Enabled(s, step)
    requires t in Apply(s, step).tasks && Apply(s, step).tasks[t].phase.Waiting?
    ensures t in s.tasks && (step == Send(t) || s.tasks[t].phase == Apply(s, step).tasks[t].phase)
  {
  }

  lemma {:induction false} WaitingWasHanded(run: Run, t: TaskId)
    requires Legal(run) && t in Final(run).tasks && Final(run).tasks[t].phase.Waiting?
    ensures Handed(Final(run), Final(run).tasks[t].phase.id)
  {
    var s, step := Final(run.before), run.step;
    OnlySendWaits(s, step, t);
    if step == Send(t) {
      RequestIdsAppend(s.requests, RequestOf(s, s.tasks[t]));
    } else {
      WaitingWasHanded(run.before, t);
      HandedStays(s, step, s.tasks[t].phase.id);
    }
  }

  /** The request of a cancellation that was cut short has not got lost. */
  lemma {:induction false} CutWasHanded(run: Run, token: Token, id: ReqId)
    requires Legal(run) && Lookup(LedgerOf(run), token) == Some(CancelCut(id))
    ensures Handed(Final(run), id)
  {
    var s, step := Final(run.before), run.step;
    RunKeepsForwards(run.before);
    FateChanges(s, LedgerOf(run.before), step, token);
    if Lookup(LedgerOf(run.before), token) == Some(CancelCut(id)) {
      CutWasHanded(run.before, token, id);
    } else {
      WaitingWasHanded(run.before, step.task);
    }
    HandedStays(s, step, id);
  }

  /** No call can go on, and the executor has nothing left to do or its answers are still read. */
  predicate AtRest(s: State) {
    (forall t | t in s.tasks :: Stranded(s, t)) && (s.readerRunning || ExecutorIdle(s))
  }

  /** The token of a stranded call is bound exactly if the call is a forward and the executor bound it. */
  lemma StrandedToken(run: Run, t: TaskId, token: Token)
    requires Legal(run) && t in Final(run).tasks && Stranded(Final(run), t) && ExecutorIdle(Final(run))
    requires Lookup(LedgerOf(run), token) in {Some(Opening(t)), Some(Closing(t))}
    ensures var s := Final(run);
            token !in s.registrations && (token in s.listeners <==> HeldByStranded(s, t, token))
  {
    RunKeepsForwards(run);
    assert TokenOk(Final(run), LedgerOf(run), token);
    WaitingWasHanded(run, t);
  }

  lemma RestingToken(run: Run, token: Token)
    requires Legal(run) && AtRest(Final(run))
    ensures var s := Final(run);
            && (token in s.registrations <==> token in HandleTokens(s))
            && (token in s.listeners <==> token in HandleTokens(s) || Leaked(run, token))
            && (s.readerRunning ==> (Leaked(run, token) <==> CancelFailed(run, token)))
  {
    var s, ledger := Final(run), LedgerOf(run);
    RunKeepsForwards(run);
    LedgerIsHistory(run, token);
    HandlesAreOwned(s, ledger, token);
    assert TokenOk(s, ledger, token);
    if Leaked(run, token) {
      LeakedIsUnknown(run, token);
    }
    if token in ledger && ledger[token].CancelCut? {
      CutWasHanded(run, token, ledger[token].id);
    }
    if token in ledger && (ledger[token].Opening? || ledger[token].Closing?) {
      StrandedToken(run, ledger[token].task, token);
    }
  }

  /** Steps that calls, executor and reader take by themselves. */
  predicate Internal(step: Step) {
    || step.Unregister? || step.Enlist? || step.Send? || step.Register? || step.Complete? || step.StoreHandle?
    || step.TakeRequest? || step.Perform? || step.SendResponse? || step.ReadResponse?
  }

  lemma SomeOutcomeIsPossible(s: State, r: Request) returns (outcome: Outcome)
    ensures Possible(s, r, outcome)
  {
    outcome := if r.CancelRemoteForward? && r.token in s.listeners then Ok else Err;
  }

  /** With nothing in the pipeline, a call that is not stranded can go on by itself. */
  lemma CallGoesOn(s: State, ledger: Ledger, t: TaskId) returns (step: Step)
    requires t in s.tasks && CallerOk(s, ledger, t) && TokenOk(s, ledger, TokenOf(s.tasks[t].job)) && !Stranded(s, t)
    requires s.tasks[t].phase.Waiting? ==>
               s.tasks[t].phase.id in s.mail || (s.tasks[t].phase.id in s.pending && !s.readerRunning)
    ensures Internal(step) && Enabled(s, step)
  {
    match s.tasks[t].phase {
      case Unregistering => step := Unregister(t);
      case Prepared(_) => step := Enlist(t);
      case Enlisted(_) => step := Send(t);
      case Listening(_) => step := StoreHandle(t);
      case Waiting(_) => step := if WasBound(s, t) then Register(t) else Complete(t);
    }
  }

  lemma WaitingIsAnsweredOrNot(s: State, t: TaskId)
    requires CallsOk(s) && t in s.tasks && s.tasks[t].phase.Waiting? && (s.readerRunning ==> Flight(s) == [])
    ensures s.tasks[t].phase.id in s.mail || (s.tasks[t].phase.id in s.pending && !s.readerRunning)
  {
    assert TaskOk(s, t) && IdOk(s, Flight(s), s.tasks[t].phase.id);
  }

  lemma SomeCallGoesOn(run: Run) returns (step: Step)
    requires Legal(run) && exists t :: t in Final(run).tasks && !Stranded(Final(run), t)
    requires Final(run).readerRunning ==> Flight(Final(run)) == []
    ensures Internal(step) && Enabled(Final(run), step)
  {
    var s := Final(run);
    var t :| t in s.tasks && !Stranded(s, t);
    RunKeepsForwards(run);
    RunKeepsCalls(run);
    assert CallerOk(s, LedgerOf(run), t) && TokenOk(s, LedgerOf(run), TokenOf(s.tasks[t].job));
    if s.tasks[t].phase.Waiting? {
      WaitingIsAnsweredOrNot(s, t);
    }
    step := CallGoesOn(s, LedgerOf(run), t);
  }

  /** Being at rest is no restriction: as long as it is not, something goes on by itself. */
  lemma UntilRestSomethingGoesOn(run: Run) returns (step: Step)
    requires Legal(run) && !AtRest(Final(run))
    ensures Internal(step) && Enabled(Final(run), step)
  {
    var s := Final(run);
    match s.working {
      case Done(_, _) => step := SendResponse;
      case Taken(request) =>
        var outcome := SomeOutcomeIsPossible(s, request);
        step := Perform(outcome);
      case NoWork =>
        if s.requests != [] {
          step := TakeRequest;
        } else if s.readerRunning && s.responses != [] {
          step := ReadResponse;
        } else {
          step := SomeCallGoesOn(run);
        }
    }
  }

  /**
   * When the system is at rest, registrations and handles hold the same tokens, and so do the listeners
   * except for the leaked ones. So all three agree exactly if nothing was leaked; while the reader runs,
   * exactly if no cancellation failed to be sent.
   */
  lemma ForwardsAgree(run: Run)
    requires Legal(run) && AtRest(Final(run))
    ensures
      var s := Final(run);
      && s.registrations.Keys == HandleTokens(s)
      && (forall token :: token in s.listeners <==> token in HandleTokens(s) || Leaked(run, token))
      && (s.listeners.Keys == s.registrations.Keys <==> forall token :: !Leaked(run, token))
      && (s.readerRunning ==>
            (s.listeners.Keys == s.registrations.Keys <==> forall token :: !CancelFailed(run, token)))
  {
    var s := Final(run);
    forall token: Token
      ensures token in s.registrations <==> token in HandleTokens(s)
      ensures Leaked(run, token) <==> token in s.listeners && token !in s.registrations
      ensures token in s.registrations ==> token in s.listeners
      ensures s.readerRunning ==> (Leaked(run, token) <==> CancelFailed(run, token))
    {
      RestingToken(run, token);
      if Leaked(run, token) {
        LeakedIsUnknown(run, token);
      }
    }
    if s.listeners.Keys == s.registrations.Keys {
      forall token: Token ensures !Leaked(run, token) && (s.readerRunning ==> !CancelFailed(run, token)) {
        assert token in s.listeners.Keys <==> token in s.registrations.Keys;
      }
    } else {
      assert !(s.listeners.Keys <= s.registrations.Keys);
      var token :| token in s.listeners.Keys && token !in s.registrations.Keys;
      RestingToken(run, token);
      assert Leaked(run, token) && (s.readerRunning ==> CancelFailed(run, token));
    }
  }

  /**
   * On every run, each token is a handle of at most one session under one key; it is then registered for
   * that session. Its listener is bound on the port of that key: on the loopback address without gateway
   * ports, else on the address of the key, or on all addresses if that is empty.
   */
  lemma HandlesAreExclusive(run: Run, c: SessionId, key: ForwardKey)
    requires Legal(run)
    requires c in Final(run).sessions && key in Final(run).sessions[c].handles
    ensures
      var s := Final(run);
      var token := s.sessions[c].handles[key];
      && Lookup(s.registrations, token) == Some(c)
      && token in s.listeners && s.listeners[token].port == key.port
      && s.listeners[token].host == (if !s.gatewayPorts then "127.0.0.1" else if key.address == "" then "0.0.0.0" else key.address)
      && forall d, other | d in s.sessions && other in s.sessions[d].handles && s.sessions[d].handles[other] == token ::
           d == c && other == key
  {
    var s, ledger := Final(run), LedgerOf(run);
    RunKeepsForwards(run);
    var token := s.sessions[c].handles[key];
    assert HandlesOk(s, ledger, c) && TokenOk(s, ledger, token);
    forall d, other | d in s.sessions && other in s.sessions[d].handles && s.sessions[d].handles[other] == token
      ensures d == c && other == key
    {
      assert HandlesOk(s, ledger, d);
    }
  }

  /** Nothing that is bound, or is going to be, is on another address than the loopback address. */
  ghost predicate OnLoopback(s: State) {
    && (forall r | Queued(s, r) && r.StartRemoteForward? :: r.bind.host == "127.0.0.1")
    && (forall token | token in s.listeners :: s.listeners[token].host == "127.0.0.1")
  }

  lemma OnlyThreeStepsBind(s: State, step: Step)
    requires Enabled(s, step) && !step.Send? && !step.TakeRequest? && !step.Perform?
    ensures var s' := Apply(s, step);
            && s'.requests == s.requests && s'.listeners == s.listeners && s'.gatewayPorts == s.gatewayPorts
            && (s'.working.Taken? ==> s'.working == s.working)
  {
  }

  lemma LoopbackStays(s: State, step: Step)
    requires Enabled(s, step) && !s.gatewayPorts && OnLoopback(s)
    ensures !Apply(s, step).gatewayPorts && OnLoopback(Apply(s, step))
  {
    match step {
      case Send(_) =>
      case TakeRequest => assert Queued(s, s.requests[0]);
      case Perform(_) => assert Queued(s, s.working.request);
      case _ => OnlyThreeStepsBind(s, step);
    }
  }

  /** Without gateway ports, nothing is ever reachable from other hosts, leaked listeners included. */
  lemma {:induction false} LoopbackOnly(run: Run)
    requires Legal(run) && !Final(run).gatewayPorts
    ensures forall token | token in Final(run).listeners :: Final(run).listeners[token].host == "127.0.0.1"
    ensures OnLoopback(Final(run))
  {
    if run.Next? {
      GatewayPortsAreFixed(Final(run.before), run.step);
      LoopbackOnly(run.before);
      LoopbackStays(Final(run.before), run.step);
    }
  }

  lemma GatewayPortsAreFixed(s: State, step: Step)
    requires Enabled(s, step)
    ensures Apply(s, step).gatewayPorts == s.gatewayPorts
  {
  }

  /** The executor never finds the token of a cancellation unknown, on any run. */
  lemma CancelsSucceed(run: Run, outcome: Outcome)
    requires Legal(run)
    requires CanPerform(Final(run), outcome) && Final(run).working.request.CancelRemoteForward?
    ensures outcome == Ok
  {
    var s, ledger := Final(run), LedgerOf(run);
    RunKeepsForwards(run);
    RunKeepsCalls(run);
    assert Queued(s, s.working.request) && UnderWay(s, ledger, s.working.request);
    assert TokenOk(s, ledger, s.working.request.token);
  }

  // ---------------------------------------------------------------- tokens are never reused

  lemma OnlyRequestsTakeTokens(s: State, step: Step)
    requires Enabled(s, step)
    ensures var s' := Apply(s, step);
            if step.RequestForward?
            then s'.requestedBy == s.requestedBy[s.nextToken := step.session] && s'.nextToken == s.nextToken + 1
            else s'.requestedBy == s.requestedBy && s'.nextToken == s.nextToken
  {
  }

  lemma {:induction false} TokensAreCounted(run: Run, token: Token)
    requires Legal(run)
    ensures Final(run).nextToken >= 1
    ensures token in Final(run).requestedBy <==> 1 <= token < Final(run).nextToken
  {
    if run.Next? {
      TokensAreCounted(run.before, token);
      OnlyRequestsTakeTokens(Final(run.before), run.step);
    }
  }

  /** A token stands for one forward of one session for good. */
  lemma {:induction false} TokensAreNeverReused(later: Run, earlier: Run, token: Token)
    requires Legal(later) && Continues(later, earlier) && Legal(earlier)
    requires token in Final(earlier).requestedBy
    ensures Lookup(Final(later).requestedBy, token) == Some(Final(earlier).requestedBy[token])
  {
    if later != earlier {
      TokensAreNeverReused(later.before, earlier, token);
      TokensAreCounted(later.before, token);
      OnlyRequestsTakeTokens(Final(later.before), later.step);
    }
  }

  // ---------------------------------------------------------------- where a connection goes

  /** The forward is registered: its call has got that far, or a session has it, or its cancellation has just begun. */
  predicate Serving(s: State, ledger: Ledger, token: Token) {
    token in ledger
    && match ledger[token]
       case Opening(t) => t in s.tasks && s.tasks[t].phase.Listening?
       case Owned(_, _) => true
       case Closing(t) => t in s.tasks && s.tasks[t].phase.Unregistering?
       case _ => false
  }

  /** A connection that is dispatched goes to the session that asked for its forward exactly while that is served. */
  lemma DispatchIsExact(run: Run)
    requires Legal(run) && CanDispatch(Final(run))
    ensures
      var s := Final(run);
      var token := s.events[0];
      && (Serving(s, LedgerOf(run), token) ==> token in s.requestedBy)
      && Dispatched(s).deliveries
         == s.deliveries + [Delivery(token, if Serving(s, LedgerOf(run), token) then Some(s.requestedBy[token]) else None)]
  {
    RunKeepsForwards(run);
    assert TokenOk(Final(run), LedgerOf(run), Final(run).events[0]);
  }

  lemma OnlyDispatchDelivers(s: State, step: Step)
    requires Enabled(s, step) && !step.Dispatch?
    ensures Apply(s, step).deliveries == s.deliveries
  {
  }

  /** On every run, every connection that went to a session went to the one that asked for its forward. */
  lemma {:induction false} DeliveriesReachRequester(run: Run, i: nat)
    requires Legal(run) && i < |Final(run).deliveries| && Final(run).deliveries[i].to.Some?
    ensures Lookup(Final(run).requestedBy, Final(run).deliveries[i].token) == Final(run).deliveries[i].to
  {
    if run.Next? {
      var s, step := Final(run.before), run.step;
      if step.Dispatch? {
        DispatchIsExact(run.before);
      } else {
        OnlyDispatchDelivers(s, step);
      }
      if i < |s.deliveries| {
        DeliveriesReachRequester(run.before, i);
        TokensAreNeverReused(run, run.before, s.deliveries[i].token);
      }
    }
  }

  /**
   * From the moment at which the executor binds a forward until its call registers it, every connection to
   * it that is dispatched is closed.
   */
  lemma BoundBeforeRegistered(run: Run, t: TaskId)
    requires Legal(run) && t in Final(run).tasks && Final(run).tasks[t].job.Forward?
    requires Final(run).tasks[t].phase.Waiting? && Bound(Final(run), Final(run).tasks[t].phase.id)
    ensures
      var s, token := Final(run), Final(run).tasks[t].job.token;
      && token in s.listeners
      && (s.events != [] && s.events[0] == token ==> Dispatched(s).deliveries == s.deliveries + [Delivery(token, None)])
  {
    RunKeepsForwards(run);
    assert CallerOk(Final(run), LedgerOf(run), t);
    assert TokenOk(Final(run), LedgerOf(run), Final(run).tasks[t].job.token);
  }

  // ---------------------------------------------------------------- runs on which it happens

  const FORWARD := Forward(0, "", 80, 1)
  const KEY := ForwardKey("", 80)

  /** What the stages below have in common: one session, one forward, nothing else going on. */
  predicate Stage(s: State, phase: Phase) {
    && s.nextId == 2 && s.nextToken == 2 && s.nextTask == 1 && s.readerRunning
    && s.tasks == map[0 := Task(FORWARD, phase, Some(0))] && s.sessions == map[0 := Session(map[], Some(0), false)]
    && s.responses == [] && s.events == [] && s.deliveries == [] && s.registrations == map[]
  }

  /** Session 0 asked for a forward of port 80, and the request is on its way. */
  predicate SentStage(s: State) {
    && Stage(s, Waiting(1)) && s.pending == map[1 := 0] && s.mail == map[] && s.computed == map[]
    && s.requests == [StartRemoteForward(1, 1, BindAddr("127.0.0.1", 80))] && s.working == NoWork && s.listeners == map[]
  }

  /** The executor bound the port. */
  predicate BoundStage(s: State) {
    && Stage(s, Waiting(1)) && s.pending == map[1 := 0] && s.mail == map[] && s.computed == map[1 := BoundPort(80)]
    && s.requests == [] && s.working == Done(1, BoundPort(80)) && 1 in s.listeners
  }

  /** The answer is at hand. */
  predicate AnsweredStage(s: State) {
    && Stage(s, Waiting(1)) && s.pending == map[] && s.mail == map[1 := Answered(BoundPort(80))]
    && s.requests == [] && s.working == NoWork && 1 in s.listeners
  }

  /** The forward is a handle of the session. */
  predicate OwnedStage(s: State) {
    && s.nextId == 2 && s.nextTask == 1 && s.readerRunning && s.tasks == map[]
    && s.sessions == map[0 := Session(map[KEY := 1], None, false)] && s.pending == map[] && s.mail == map[]
    && s.requests == [] && s.working == NoWork
  }

  lemma ForwardIsSent() returns (run: Run)
    ensures Legal(run) && SentStage(Final(run))
  {
    var r1 := Next(Next(Begin(false), OpenSession), RequestForward(0, "", 80));
    assert Legal(r1) && Final(r1).tasks[0] == Task(FORWARD, Prepared(1), Some(0));
    run := Next(Next(r1, Enlist(0)), Send(0));
  }

  lemma BindingSteps(s: State)
    requires SentStage(s)
    ensures CanTakeRequest(s) && CanPerform(TookRequest(s), BoundPort(80))
    ensures BoundStage(Performed(TookRequest(s), BoundPort(80)))
  {
  }

  lemma ForwardIsBound() returns (run: Run)
    ensures Legal(run) && BoundStage(Final(run))
  {
    var r0 := ForwardIsSent();
    BindingSteps(Final(r0));
    run := Next(Next(r0, TakeRequest), Perform(BoundPort(80)));
  }

  lemma EarlyConnectionSteps(s: State)
    requires BoundStage(s)
    ensures CanAccept(s, 1) && CanReadResponse(Accepted(s, 1)) && CanDispatch(ReadOne(Accepted(s, 1)))
    ensures var s' := Dispatched(ReadOne(Accepted(s, 1))); s'.deliveries == [Delivery(1, None)] && 1 in s'.listeners
  {
  }

  /** A connection that comes in as soon as the port is bound is closed. */
  lemma EarlyConnectionIsClosed() returns (run: Run)
    ensures Legal(run) && 1 in Final(run).listeners && Final(run).deliveries == [Delivery(1, None)]
  {
    var r0 := ForwardIsBound();
    var s := Final(r0);
    EarlyConnectionSteps(s);
    Extend(r0, Accept(1), Accepted(s, 1));
    var r1 := Next(r0, Accept(1));
    Extend(r1, ReadResponse, ReadOne(Accepted(s, 1)));
    var r2 := Next(r1, ReadResponse);
    Extend(r2, Dispatch, Dispatched(ReadOne(Accepted(s, 1))));
    run := Next(r2, Dispatch);
  }

  lemma AnswerSteps(s: State)
    requires BoundStage(s)
    ensures CanSendResponse(s) && CanReadResponse(SentResponse(s)) && AnsweredStage(ReadOne(SentResponse(s)))
  {
  }

  lemma RegisterSteps(s: State)
    requires AnsweredStage(s)
    ensures CanRegister(s, 0) && CanStoreHandle(RegisteredForward(s, 0), 0)
    ensures OwnedStage(StoredHandle(RegisteredForward(s, 0), 0))
  {
    assert s.sessions[0].handles[KEY := 1] == map[KEY := 1];
  }

  lemma ForwardIsAnswered() returns (run: Run)
    ensures Legal(run) && AnsweredStage(Final(run))
  {
    var r0 := ForwardIsBound();
    var s := Final(r0);
    AnswerSteps(s);
    Extend(r0, SendResponse, SentResponse(s));
    Extend(Next(r0, SendResponse), ReadResponse, ReadOne(SentResponse(s)));
    run := Next(Next(r0, SendResponse), ReadResponse);
  }

  lemma ForwardIsOwned() returns (run: Run)
    ensures Legal(run) && OwnedStage(Final(run))
  {
    var r0 := ForwardIsAnswered();
    var s := Final(r0);
    RegisterSteps(s);
    Extend(r0, Register(0), RegisteredForward(s, 0));
    Extend(Next(r0, Register(0)), StoreHandle(0), StoredHandle(RegisteredForward(s, 0), 0));
    run := Next(Next(r0, Register(0)), StoreHandle(0));
  }

  /** Its cancellation is about to be sent. */
  predicate CancelStage(s: State) {
    && s.tasks == map[1 := Task(Cancel(1), Enlisted(2), Some(0))] && s.readerRunning && s.requests == [] && s.working == NoWork
  }

  lemma CancelSteps(s: State)
    requires OwnedStage(s)
    ensures CanCancelHandle(s, 0, KEY) && CanUnregister(CancelledHandle(s, 0, KEY), 1)
    ensures CanEnlist(Unregistered(CancelledHandle(s, 0, KEY), 1), 1)
    ensures CancelStage(EnlistedCall(Unregistered(CancelledHandle(s, 0, KEY), 1), 1))
  {
  }

  lemma CancelIsReady() returns (run: Run)
    ensures Legal(run) && CancelStage(Final(run))
  {
    var r0 := ForwardIsOwned();
    var s := Final(r0);
    CancelSteps(s);
    Extend(r0, CancelHandle(0, KEY), CancelledHandle(s, 0, KEY));
    var r1 := Next(r0, CancelHandle(0, KEY));
    Extend(r1, Unregister(1), Unregistered(CancelledHandle(s, 0, KEY), 1));
    var r2 := Next(r1, Unregister(1));
    Extend(r2, Enlist(1), EnlistedCall(Unregistered(CancelledHandle(s, 0, KEY), 1), 1));
    run := Next(r2, Enlist(1));
  }

  lemma FailingSend(s: State)
    requires CancelStage(s)
    ensures CanSend(s, 1) && var s' := SendFailed(s, 1); s'.tasks == map[] && s'.readerRunning && ExecutorIdle(s')
  {
  }

  /** The session cancels the forward, and the request cannot be sent. */
  lemma CancelLeakHappens() returns (run: Run)
    ensures Legal(run) && Final(run).tasks == map[] && Final(run).readerRunning && ExecutorIdle(Final(run))
    ensures CancelFailed(run, 1)
  {
    var r0 := CancelIsReady();
    FailingSend(Final(r0));
    Extend(r0, SendFails(1), SendFailed(Final(r0), 1));
    run := Next(r0, SendFails(1));
  }

  /** The reader stopped while the port was being bound, and the call ended. */
  predicate CutStage(s: State) {
    && s.tasks == map[] && s.requests == [StartRemoteForward(1, 1, BindAddr("127.0.0.1", 80))] && s.working == NoWork
    && s.listeners == map[]
  }

  lemma CutSteps(s: State)
    requires SentStage(s)
    ensures CanReaderStop(s) && CanComplete(ReaderStopped(s), 0) && CutsBind(ReaderStopped(s), 0, 1)
    ensures ReaderStopped(s).tasks[0].phase == Waiting(1)
    ensures CutStage(CompletedCall(ReaderStopped(s), 0))
  {
  }

  lemma BindIsCutShort() returns (run: Run)
    ensures Legal(run) && CutStage(Final(run)) && BindCutShort(run, 1) == Some(1)
  {
    var r0 := ForwardIsSent();
    var s := Final(r0);
    CutSteps(s);
    Extend(r0, ReaderStops, ReaderStopped(s));
    Extend(Next(r0, ReaderStops), Complete(0), CompletedCall(ReaderStopped(s), 0));
    run := Next(Next(r0, ReaderStops), Complete(0));
  }

  lemma LateBindSteps(s: State)
    requires CutStage(s)
    ensures CanTakeRequest(s) && CanPerform(TookRequest(s), BoundPort(80))
    ensures var s' := Performed(TookRequest(s), BoundPort(80)); s'.tasks == map[] && ExecutorIdle(s') && Bound(s', 1)
  {
  }

  /** Then the executor binds it all the same. */
  lemma BindLeakHappens() returns (run: Run)
    ensures Legal(run) && Final(run).tasks == map[] && ExecutorIdle(Final(run)) && BindCutShort(run, 1) == Some(1)
    ensures Leaked(run, 1)
  {
    var r0 := BindIsCutShort();
    var s := Final(r0);
    LateBindSteps(s);
    Extend(r0, TakeRequest, TookRequest(s));
    var r1 := Next(r0, TakeRequest);
    assert BindCutShort(r1, 1) == Some(1);
    Extend(r1, Perform(BoundPort(80)), Performed(TookRequest(s), BoundPort(80)));
    run := Next(r1, Perform(BoundPort(80)));
  }

  /** The reader has stopped, and only then does the session ask for the forward. */
  lemma LateForwardIsSent() returns (run: Run)
    ensures Legal(run) && LateStage(Final(run))
  {
    var r0 := Next(Next(Begin(false), OpenSession), ReaderStops);
    assert Legal(r0);
    var s := Final(r0);
    LateSteps(s);
    Extend(r0, RequestForward(0, "", 80), RequestedForward(s, 0, "", 80));
    var r1, s1 := Next(r0, RequestForward(0, "", 80)), RequestedForward(s, 0, "", 80);
    Extend(r1, Enlist(0), EnlistedCall(s1, 0));
    var r2 := Next(r1, Enlist(0));
    Extend(r2, Send(0), Sent(EnlistedCall(s1, 0), 0));
    run := Next(r2, Send(0));
  }

  predicate LateStage(s: State) {
    && !s.readerRunning && s.tasks == map[0 := Task(FORWARD, Waiting(1), Some(0))] && 1 in s.pending
    && s.requests == [StartRemoteForward(1, 1, BindAddr("127.0.0.1", 80))] && s.working == NoWork && s.listeners == map[]
  }

  lemma LateSteps(s: State)
    requires s.nextId == 1 && s.nextToken == 1 && s.nextTask == 0 && !s.readerRunning && !s.gatewayPorts
    requires s.tasks == map[] && s.sessions == map[0 := Session(map[], None, false)]
    requires s.requests == [] && s.working == NoWork && s.listeners == map[]
    ensures CanRequestForward(s, 0, "", 80) && CanEnlist(RequestedForward(s, 0, "", 80), 0)
    ensures CanSend(EnlistedCall(RequestedForward(s, 0, "", 80), 0), 0)
    ensures LateStage(Sent(EnlistedCall(RequestedForward(s, 0, "", 80), 0), 0))
  {
  }

  lemma StrandedBindSteps(s: State)
    requires LateStage(s)
    ensures CanTakeRequest(s) && CanPerform(TookRequest(s), BoundPort(80))
    ensures var s' := Performed(TookRequest(s), BoundPort(80)); AtRest(s') && 0 in s'.tasks && HeldByStranded(s', 0, 1)
  {
  }

  /** The executor binds it for a call that waits for ever. */
  lemma StrandedLeakHappens() returns (run: Run)
    ensures Legal(run) && AtRest(Final(run)) && HeldByStranded(Final(run), 0, 1) && Leaked(run, 1)
  {
    var r0 := LateForwardIsSent();
    var s := Final(r0);
    StrandedBindSteps(s);
    Extend(r0, TakeRequest, TookRequest(s));
    var r1 := Next(r0, TakeRequest);
    Extend(r1, Perform(BoundPort(80)), Performed(TookRequest(s), BoundPort(80)));
    run := Next(r1, Perform(BoundPort(80)));
  }
}
