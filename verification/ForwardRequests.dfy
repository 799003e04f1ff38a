/**
 * Remote forwards as they were asked for (src/sshd.rs, tcpip_forward; src/executor.rs,
 * start_remote_forward): whatever else goes on, a session's handle is for the address and port of the
 * request that it came from.
 */
module ForwardRequests {
  import opened Common
  import opened ExecutorProtocol
  import opened ExecutorCalls
  import opened RemoteForwards
  import opened ForwardOutcomes

  function AskedAfter(s: State, asked: map<Token, ForwardKey>, step: Step): map<Token, ForwardKey> {
    if step.RequestForward? then asked[s.nextToken := ForwardKey(step.address, step.port)] else asked
  }

  /** What each token was asked for: an address, and a port or zero for any. */
  function Asked(run: Run): map<Token, ForwardKey>
    requires Legal(run)
  {
    match run
    case Begin(_) => map[]
    case Next(before, step) =>
      AskedAfter(Final(before), Asked(before), step)
  }

  predicate Meets(key: ForwardKey, asked: ForwardKey) {
    key.address == asked.address && key.port != 0 && (asked.port != 0 ==> key.port == asked.port)
  }

  /** A forward call is for what was asked, and so is the port that it got. */
  predicate CallAsAsked(s: State, asked: map<Token, ForwardKey>, t: TaskId)
    requires t in s.tasks
  {
    var task := s.tasks[t];
    task.job.Forward? ==>
      var want := ForwardKey(task.job.address, task.job.port);
      && Lookup(asked, task.job.token) == Some(want)
      && (task.phase.Waiting? && Bound(s, task.phase.id) ==> Meets(ForwardKey(want.address, s.computed[task.phase.id].port), want))
      && (task.phase.Listening? ==> Meets(KeyOf(task), want))
  }

  predicate HandlesAsAsked(s: State, asked: map<Token, ForwardKey>, c: SessionId)
    requires c in s.sessions
  {
    forall key | key in s.sessions[c].handles ::
      s.sessions[c].handles[key] in asked && Meets(key, asked[s.sessions[c].handles[key]])
  }

  ghost predicate AllAsAsked(s: State, asked: map<Token, ForwardKey>) {
    && (forall t | t in s.tasks :: CallAsAsked(s, asked, t))
    && (forall c | c in s.sessions :: HandlesAsAsked(s, asked, c))
  }

  /** A call keeps its job, and changes its phase by its own steps. */
  lemma CallsKeepTheirJob(s: State, step: Step, t: TaskId)
    requires Enabled(s, step) && t in Apply(s, step).tasks && t in s.tasks && t < s.nextTask
    ensures Apply(s, step).tasks[t].job == s.tasks[t].job
    ensures Apply(s, step).tasks[t].phase.Listening? && !s.tasks[t].phase.Listening? ==> step == Register(t)
    ensures Apply(s, step).tasks[t].phase.Listening? && s.tasks[t].phase.Listening? ==>
              Apply(s, step).tasks[t].phase == s.tasks[t].phase
  {
    if !OfCall(step) {
      OthersLeaveCalls(s, step, t);
    }
  }

  lemma NewCalls(s: State, step: Step, t: TaskId)
    requires Enabled(s, step) && t in Apply(s, step).tasks && t !in s.tasks
    ensures Apply(s, step).tasks[t].job.Forward? ==>
              && step.RequestForward?
              && Apply(s, step).tasks[t] == Task(Forward(step.session, step.address, step.port, s.nextToken), Prepared(s.nextId), Some(step.session))
  {
  }

  lemma OnlyPerformComputes(s: State, step: Step)
    requires Enabled(s, step) && !step.Perform?
    ensures Apply(s, step).computed == s.computed
  {
    if !step.Register? && !step.Complete? {
      KeepsRecords(s, step);
    }
  }

  /** A port that the executor has just bound for a call is one that the call asked for. */
  lemma BoundAsAsked(s: State, outcome: Outcome, t: TaskId)
    requires RequestsOk(s) && CanPerform(s, outcome) && outcome.BoundPort?
    requires t in s.tasks && s.tasks[t].job.Forward? && s.tasks[t].phase == Waiting(s.working.request.id)
    ensures outcome.port != 0 && (s.tasks[t].job.port != 0 ==> outcome.port == s.tasks[t].job.port)
  {
    assert s.working.request == RequestOf(s, s.tasks[t]);
  }

  lemma PortStaysAsAsked(s: State, asked: map<Token, ForwardKey>, step: Step, t: TaskId)
    requires CallsOk(s) && Enabled(s, step)
    requires t in s.tasks && s.tasks[t].job.Forward? && CallAsAsked(s, asked, t)
    requires t in Apply(s, step).tasks && Apply(s, step).tasks[t].phase.Waiting?
    ensures var s', job := Apply(s, step), s.tasks[t].job;
            Bound(s', s'.tasks[t].phase.id) ==>
              Meets(ForwardKey(job.address, s'.computed[s'.tasks[t].phase.id].port), ForwardKey(job.address, job.port))
  {
    OnlySendWaits(s, step, t);
    assert TaskOk(s, t) && IdOk(s, Flight(s), s.tasks[t].phase.id);
    if !step.Perform? {
      OnlyPerformComputes(s, step);
    } else if s.tasks[t].phase.id == s.working.request.id && step.outcome.BoundPort? {
      BoundAsAsked(s, step.outcome, t);
    }
  }

  lemma RegisteredAsAsked(s: State, ledger: Ledger, asked: map<Token, ForwardKey>, t: TaskId)
    requires CallsOk(s) && ForwardsOk(s, ledger) && CanRegister(s, t) && CallAsAsked(s, asked, t)
    ensures CallAsAsked(RegisteredForward(s, t), asked, t)
  {
    CompletionIsGenuine(s, ledger, t);
  }

  lemma CallStaysAsAsked(s: State, ledger: Ledger, asked: map<Token, ForwardKey>, step: Step, t: TaskId)
    requires CallsOk(s) && ForwardsOk(s, ledger) && Enabled(s, step)
    requires t in s.tasks && CallAsAsked(s, asked, t) && t in Apply(s, step).tasks
    ensures CallAsAsked(Apply(s, step), asked, t)
  {
    assert TaskOk(s, t);
    if step == Register(t) {
      RegisteredAsAsked(s, ledger, asked, t);
    } else {
      CallsKeepTheirJob(s, step, t);
      if s.tasks[t].job.Forward? && Apply(s, step).tasks[t].phase.Waiting? {
        PortStaysAsAsked(s, asked, step, t);
      }
    }
  }

  /** Only storing a handle adds one. */
  lemma OnlyStoringAddsHandles(s: State, step: Step, c: SessionId, key: ForwardKey)
    requires Enabled(s, step) && !step.StoreHandle?
    requires c in Apply(s, step).sessions && key in Apply(s, step).sessions[c].handles
    ensures c in s.sessions && Lookup(s.sessions[c].handles, key) == Some(Apply(s, step).sessions[c].handles[key])
  {
    match step {
      case OpenSession =>
      case RequestForward(_, _, _) =>
      case RequestOther(_) =>
      case CancelHandle(_, _) =>
      case DropSession(_) =>
      case CloseSession(_) =>
      case SendFails(_) =>
      case Complete(_) =>
      case _ => OthersLeaveSessions(s, step);
    }
  }

  lemma OthersLeaveSessions(s: State, step: Step)
    requires Enabled(s, step)
    requires || step.Unregister? || step.Enlist? || step.Send? || step.TakeRequest? || step.Perform? || step.SendResponse?
             || step.Accept? || step.ReadResponse? || step.Dispatch? || step.ReaderStops? || step.Register?
    ensures Apply(s, step).sessions == s.sessions
  {
  }

  lemma StoredAsAsked(s: State, asked: map<Token, ForwardKey>, t: TaskId, c: SessionId)
    requires CanStoreHandle(s, t) && CallAsAsked(s, asked, t) && c in s.sessions && HandlesAsAsked(s, asked, c)
    ensures c in StoredHandle(s, t).sessions && HandlesAsAsked(StoredHandle(s, t), asked, c)
  {
  }

  lemma HandlesStayAsAsked(s: State, ledger: Ledger, asked: map<Token, ForwardKey>, step: Step, c: SessionId)
    requires ForwardsOk(s, ledger) && AllAsAsked(s, asked) && Enabled(s, step) && c in Apply(s, step).sessions
    ensures HandlesAsAsked(Apply(s, step), asked, c)
  {
    if step.StoreHandle? {
      assert CallAsAsked(s, asked, step.task) && HandlesAsAsked(s, asked, c);
      StoredAsAsked(s, asked, step.task, c);
    } else {
      forall key | key in Apply(s, step).sessions[c].handles
        ensures var token := Apply(s, step).sessions[c].handles[key]; token in asked && Meets(key, asked[token])
      {
        OnlyStoringAddsHandles(s, step, c, key);
        assert HandlesAsAsked(s, asked, c);
      }
    }
  }

  lemma NewCallAsAsked(s: State, asked: map<Token, ForwardKey>, step: Step, t: TaskId)
    requires Enabled(s, step) && t in Apply(s, step).tasks && t !in s.tasks
    ensures CallAsAsked(Apply(s, step), AskedAfter(s, asked, step), t)
  {
    NewCalls(s, step, t);
  }

  /** What was asked for a new token is of no concern to what there is. */
  lemma NewTokenChangesNothing(s: State, s': State, ledger: Ledger, asked: map<Token, ForwardKey>, step: Step)
    requires ForwardsOk(s, ledger)
    requires forall t | t in s'.tasks && t in s.tasks :: s'.tasks[t].job == s.tasks[t].job && CallAsAsked(s', asked, t)
    requires forall t | t in s'.tasks && t !in s.tasks :: CallAsAsked(s', AskedAfter(s, asked, step), t)
    requires forall c | c in s'.sessions :: HandlesAsAsked(s', asked, c)
    requires forall token | token in asked :: token < s.nextToken
    ensures AllAsAsked(s', AskedAfter(s, asked, step))
  {
    forall t | t in s'.tasks ensures CallAsAsked(s', AskedAfter(s, asked, step), t) {
      assert t in s.tasks ==> CallAsAsked(s', asked, t) && s'.tasks[t].job == s.tasks[t].job && CallerOk(s, ledger, t);
    }
    forall c | c in s'.sessions ensures HandlesAsAsked(s', AskedAfter(s, asked, step), c) {
      assert HandlesAsAsked(s', asked, c);
    }
  }

  lemma StepKeepsAsked(s: State, ledger: Ledger, asked: map<Token, ForwardKey>, step: Step)
    requires CallsOk(s) && ForwardsOk(s, ledger) && Enabled(s, step) && AllAsAsked(s, asked)
    requires forall token | token in asked :: token < s.nextToken
    ensures AllAsAsked(Apply(s, step), AskedAfter(s, asked, step))
  {
    var s' := Apply(s, step);
    forall t | t in s'.tasks && t in s.tasks ensures s'.tasks[t].job == s.tasks[t].job && CallAsAsked(s', asked, t) {
      assert TaskOk(s, t);
      CallsKeepTheirJob(s, step, t);
      CallStaysAsAsked(s, ledger, asked, step, t);
    }
    forall t | t in s'.tasks && t !in s.tasks ensures CallAsAsked(s', AskedAfter(s, asked, step), t) {
      NewCallAsAsked(s, asked, step, t);
    }
    forall c | c in s'.sessions ensures HandlesAsAsked(s', asked, c) {
      HandlesStayAsAsked(s, ledger, asked, step, c);
    }
    NewTokenChangesNothing(s, s', ledger, asked, step);
  }

  lemma {:induction false} RunKeepsAsked(run: Run)
    requires Legal(run)
    ensures AllAsAsked(Final(run), Asked(run))
    ensures forall token | token in Asked(run) :: token < Final(run).nextToken
  {
    if run.Next? {
      RunKeepsAsked(run.before);
      RunKeepsCalls(run.before);
      RunKeepsForwards(run.before);
      StepKeepsAsked(Final(run.before), LedgerOf(run.before), Asked(run.before), run.step);
      OnlyRequestsTakeTokens(Final(run.before), run.step);
    }
  }

  /** On every run, a handle is for the address that was asked for, and for the port unless any was asked for. */
  lemma HandlesMeetTheRequest(run: Run, c: SessionId, key: ForwardKey)
    requires Legal(run) && c in Final(run).sessions && key in Final(run).sessions[c].handles
    ensures
      var token := Final(run).sessions[c].handles[key];
      && token in Asked(run) && key.address == Asked(run)[token].address && key.port != 0
      && (Asked(run)[token].port != 0 ==> key.port == Asked(run)[token].port)
  {
    RunKeepsAsked(run);
    assert HandlesAsAsked(Final(run), Asked(run), c);
  }
}
