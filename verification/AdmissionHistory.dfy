/**
 * What the admission controller (src/admission.rs) decides, stated over the history of the calls made
 * to it and of nothing else. There are no counters, no deques, no pruning, no sweeping and no token
 * count here: `Decide` and `Strikeout` are the reference that the class in Admission.dfy is proved to
 * follow on every run.
 */
module AdmissionHistory {
  import opened Common
  import opened Network
  import TB = TokenBucket

  datatype Config = Config(
    maxGlobal: nat,
    maxPerIp: nat,
    maxPerSubnet: nat,
    limits: TB.Limits,
    banThreshold: nat,
    banWindow: nat,
    banDuration: nat)

  datatype RejectReason =
    | TooManyUnauthenticatedConnections
    | TooManyUnauthenticatedConnectionsForIp
    | TooManyUnauthenticatedConnectionsForSubnet
    | ConnectionRateLimited
    | TemporarilyBanned

  datatype Decision = Admitted | Rejected(reason: RejectReason)

  datatype Event =
    | Attempt(ip: IpAddr, at: Instant, decision: Decision)
    | Failure(ip: IpAddr, at: Instant, banned: bool)
    | Released(ip: IpAddr, at: Instant)

  datatype History = Start | Then(past: History, event: Event)

  /** Connections of `scope` that were admitted and not yet released. */
  function Held(h: History, scope: Scope): int {
    match h
    case Start => 0
    case Then(past, e) =>
      Held(past, scope) +
      if !Covers(scope, e.ip) then 0
      else if e.Attempt? && e.decision.Admitted? then 1
      else if e.Released? then -1
      else 0
  }

  /** A connection of `ip` is held, and counted in all three of its scopes. */
  predicate Holds(h: History, ip: IpAddr) {
    && Held(h, Everyone) > 0
    && Held(h, Subnet(SubnetKeyOf(ip))) > 0
    && Held(h, Address(ip)) > 0
  }

  /** Authentication failures of `ip` since its last ban that are not older than `cutoff`. */
  function Strikes(h: History, ip: IpAddr, cutoff: Instant): nat {
    match h
    case Start => 0
    case Then(past, e) =>
      if !e.Failure? || e.ip != ip then Strikes(past, ip, cutoff)
      else if e.banned then 0
      else Strikes(past, ip, cutoff) + if e.at >= cutoff then 1 else 0
  }

  /** Some earlier failure of `ip` triggered a ban that still runs at `now`. */
  predicate BannedAt(cfg: Config, h: History, ip: IpAddr, now: Instant) {
    match h
    case Start => false
    case Then(past, e) =>
      || (e.Failure? && e.ip == ip && e.banned && e.at <= now < e.at + cfg.banDuration)
      || BannedAt(cfg, past, ip, now)
  }

  /** A failure of `ip` at `now` triggers a ban. */
  predicate Strikeout(cfg: Config, h: History, ip: IpAddr, now: Instant) {
    Strikes(h, ip, now - cfg.banWindow) + 1 >= cfg.banThreshold
  }

  /** Nothing is known about `ip` that its entry would have to remember. */
  predicate Idle(cfg: Config, h: History, ip: IpAddr, now: Instant) {
    && Held(h, Address(ip)) == 0
    && !BannedAt(cfg, h, ip, now)
    && Strikes(h, ip, now - cfg.banWindow) == 0
  }

  /**
   * What was asked of the rate limiter of `ip` in the current lifetime of its entry. A lifetime ends
   * when a call for `ip` finds it idle.
   */
  function Lifetime(cfg: Config, h: History, ip: IpAddr): Option<TB.Log>
    decreases h, 0
  {
    match h
    case Start => None
    case Then(past, e) =>
      if e.ip != ip || e.Released? then Lifetime(cfg, past, ip)
      else if e.Failure? then Some(LogAt(cfg, past, ip, e.at))
      else if e.decision == Admitted || e.decision == Rejected(ConnectionRateLimited) then
        Some(TB.Tried(LogAt(cfg, past, ip, e.at), e.at, e.decision.Admitted?))
      else if Idle(cfg, past, ip, e.at) then None
      else Lifetime(cfg, past, ip)
  }

  /** The rate limiter log that a call for `ip` at `now` continues. */
  function LogAt(cfg: Config, h: History, ip: IpAddr, now: Instant): TB.Log
    decreases h, 1
  {
    var current := Lifetime(cfg, h, ip);
    if Idle(cfg, h, ip, now) || current.None? then TB.Created(now) else current.value
  }

  /** The answer to a connection from `ip` at `now`. */
  function Decide(cfg: Config, h: History, ip: IpAddr, now: Instant): Decision {
    if BannedAt(cfg, h, ip, now) then
      Rejected(TemporarilyBanned)
    else if Held(h, Everyone) >= cfg.maxGlobal then
      Rejected(TooManyUnauthenticatedConnections)
    else if !Idle(cfg, h, ip, now) && Held(h, Address(ip)) >= cfg.maxPerIp then
      Rejected(TooManyUnauthenticatedConnectionsForIp)
    else if Held(h, Subnet(SubnetKeyOf(ip))) >= cfg.maxPerSubnet then
      Rejected(TooManyUnauthenticatedConnectionsForSubnet)
    else if !TB.Allows(cfg.limits, LogAt(cfg, h, ip, now), now) then
      Rejected(ConnectionRateLimited)
    else
      Admitted
  }

  predicate EndsBy(h: History, now: Instant) {
    h.Start? || h.event.at <= now
  }

  /**
   * A history in time order in which every answer is the one the reference gives, and in which only
   * connections that are held get released.
   */
  predicate Faithful(cfg: Config, h: History) {
    match h
    case Start => true
    case Then(past, e) =>
      && Faithful(cfg, past)
      && EndsBy(past, e.at)
      && match e
         case Attempt(ip, at, decision) => decision == Decide(cfg, past, ip, at)
         case Failure(ip, at, banned) => banned == Strikeout(cfg, past, ip, at)
         case Released(ip, _) => Holds(past, ip)
  }

  // ---------------------------------------------------------------- caps

  /** The three caps hold after every event. A cap of zero per address still lets one connection in. */
  lemma {:induction false} CapsHold(cfg: Config, h: History, ip: IpAddr)
    requires Faithful(cfg, h)
    ensures Held(h, Everyone) <= cfg.maxGlobal
    ensures Held(h, Subnet(SubnetKeyOf(ip))) <= cfg.maxPerSubnet
    ensures Held(h, Address(ip)) <= Max(1, cfg.maxPerIp)
  {
    if h.Then? {
      CapsHold(cfg, h.past, ip);
    }
  }

  /** With a per-address cap of zero, a quiet address is admitted all the same. */
  lemma ZeroCapAdmitsOne(cfg: Config, ip: IpAddr, now: Instant)
    requires cfg.maxPerIp == 0 && cfg.maxGlobal > 0 && cfg.maxPerSubnet > 0 && cfg.limits.burst > 0
    ensures Decide(cfg, Start, ip, now) == Admitted
    ensures Held(Then(Start, Attempt(ip, now, Admitted)), Address(ip)) == 1
  {
    FreshLogAllows(cfg.limits, now);
  }

  lemma FreshLogAllows(lim: TB.Limits, now: Instant)
    ensures TB.Allows(lim, TB.Created(now), now) <==> lim.burst >= 1
  {
    TB.EarnedMonotone(lim, 0, 0);
  }

  // ---------------------------------------------------------------- bans

  /** Once no later event comes, a ban only runs out. */
  lemma {:induction false} BanRunsOut(cfg: Config, h: History, ip: IpAddr, now: Instant, later: Instant)
    requires Faithful(cfg, h) && EndsBy(h, now) && now <= later
    requires BannedAt(cfg, h, ip, later)
    ensures BannedAt(cfg, h, ip, now)
    ensures later < now + cfg.banDuration
  {
    if h.Then? && BannedAt(cfg, h.past, ip, later) {
      BanRunsOut(cfg, h.past, ip, now, later);
    }
  }

  /** A narrower window holds no more failures. */
  lemma {:induction false} WindowShrinks(h: History, ip: IpAddr, cutoff: Instant, later: Instant)
    requires cutoff <= later
    ensures Strikes(h, ip, later) <= Strikes(h, ip, cutoff)
  {
    if h.Then? {
      WindowShrinks(h.past, ip, cutoff, later);
    }
  }

  /** An idle address stays idle until its next event. */
  lemma StaysIdle(cfg: Config, h: History, ip: IpAddr, now: Instant, later: Instant)
    requires Faithful(cfg, h) && EndsBy(h, now) && now <= later
    requires Idle(cfg, h, ip, now)
    ensures Idle(cfg, h, ip, later)
  {
    if BannedAt(cfg, h, ip, later) {
      BanRunsOut(cfg, h, ip, now, later);
    }
    WindowShrinks(h, ip, now - cfg.banWindow, later - cfg.banWindow);
  }

  // ---------------------------------------------------------------- rate

  /** The rate limiter log of every lifetime is genuine, so all of TokenBucket.dfy applies to it. */
  lemma {:induction false} LifetimeIsGenuine(cfg: Config, h: History, ip: IpAddr, now: Instant)
    requires Faithful(cfg, h) && EndsBy(h, now)
    ensures var log := LogAt(cfg, h, ip, now); TB.Genuine(cfg.limits, log) && log.at <= now
    ensures Lifetime(cfg, h, ip).Some? ==>
              TB.Genuine(cfg.limits, Lifetime(cfg, h, ip).value) && Lifetime(cfg, h, ip).value.at <= now
  {
    if h.Then? {
      LifetimeIsGenuine(cfg, h.past, ip, h.event.at);
    }
  }

  /** The limiter starts afresh for an idle address, so it never turns one away that may connect at all. */
  lemma IdleIsNeverRateLimited(cfg: Config, h: History, ip: IpAddr, now: Instant)
    requires Idle(cfg, h, ip, now) && cfg.limits.burst >= 1
    ensures Decide(cfg, h, ip, now) != Rejected(ConnectionRateLimited)
  {
    FreshLogAllows(cfg.limits, now);
  }

  /** Connections of `ip` that were admitted at `now`. */
  function AdmittedAt(h: History, ip: IpAddr, now: Instant): nat {
    match h
    case Start => 0
    case Then(past, e) => AdmittedAt(past, ip, now) + if e == Attempt(ip, now, Admitted) then 1 else 0
  }

  /** `n` connections of one address at one moment, each released before the next. */
  function Churn(ip: IpAddr, now: Instant, n: nat): History {
    if n == 0 then Start else Then(Then(Churn(ip, now, n - 1), Attempt(ip, now, Admitted)), Released(ip, now))
  }

  lemma {:induction false} ChurnLeavesNothing(cfg: Config, ip: IpAddr, now: Instant, n: nat)
    ensures forall scope :: Held(Churn(ip, now, n), scope) == 0
    ensures Idle(cfg, Churn(ip, now, n), ip, now) && EndsBy(Churn(ip, now, n), now)
  {
    if n > 0 {
      ChurnLeavesNothing(cfg, ip, now, n - 1);
      var h := Churn(ip, now, n - 1);
      var during := Then(h, Attempt(ip, now, Admitted));
      forall scope ensures Held(Churn(ip, now, n), scope) == 0 {
        assert Held(during, scope) == Held(h, scope) + if Covers(scope, ip) then 1 else 0;
      }
    }
  }

  /**
   * So the rate holds per lifetime only: over a run, the admissions of one address at one moment have no
   * bound, whatever the rate is.
   */
  lemma {:induction false} ChurnIsUnlimited(cfg: Config, ip: IpAddr, now: Instant, n: nat)
    requires cfg.maxGlobal >= 1 && cfg.maxPerSubnet >= 1 && cfg.limits.burst >= 1
    ensures Faithful(cfg, Churn(ip, now, n)) && AdmittedAt(Churn(ip, now, n), ip, now) == n
  {
    if n > 0 {
      var h := Churn(ip, now, n - 1);
      ChurnIsUnlimited(cfg, ip, now, n - 1);
      ChurnLeavesNothing(cfg, ip, now, n - 1);
      IdleIsNeverRateLimited(cfg, h, ip, now);
      assert Decide(cfg, h, ip, now) == Admitted;
    }
  }
}
