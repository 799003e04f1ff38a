/**
 * What the reference decisions of AdmissionHistory.dfy come to, in terms of what happened: which events
 * ban an address, which failures count, that every rejection has its cause, and what the rate allows
 * while an address is busy.
 */
module AdmissionCauses {
  import opened Common
  import opened Network
  import opened AdmissionHistory
  import TB = TokenBucket

  // ---------------------------------------------------------------- bans

  predicate Occurs(h: History, e: Event) {
    h.Then? && (h.event == e || Occurs(h.past, e))
  }

  /** An address is banned exactly while a failure that made a ban is no older than the ban lasts. */
  lemma {:induction false} BannedExactly(cfg: Config, h: History, ip: IpAddr, now: Instant)
    ensures BannedAt(cfg, h, ip, now) <==>
              exists t :: Occurs(h, Failure(ip, t, true)) && t <= now < t + cfg.banDuration
  {
    if h.Then? {
      BannedExactly(cfg, h.past, ip, now);
      if h.event.Failure? && h.event.ip == ip && h.event.banned {
        assert Occurs(h, Failure(ip, h.event.at, true));
      }
      assert forall t | Occurs(h.past, Failure(ip, t, true)) :: Occurs(h, Failure(ip, t, true));
    }
  }

  function Events(h: History): seq<Event> {
    match h
    case Start => []
    case Then(past, e) => Events(past) + [e]
  }

  predicate MakesBan(e: Event, ip: IpAddr) {
    e.Failure? && e.ip == ip && e.banned
  }

  predicate NoBanFrom(ev: seq<Event>, i: nat, ip: IpAddr) {
    forall j | i <= j < |ev| :: !MakesBan(ev[j], ip)
  }

  /** The positions of the failures of `ip` that are not older than `cutoff` and came after its last ban. */
  function StrikePositions(ev: seq<Event>, ip: IpAddr, cutoff: Instant): set<int> {
    set i | 0 <= i < |ev| && ev[i].Failure? && ev[i].ip == ip && ev[i].at >= cutoff
            && NoBanFrom(ev, i, ip)
  }

  /** The failures that count are those. */
  lemma {:induction false} StrikesAreCounted(h: History, ip: IpAddr, cutoff: Instant)
    ensures Strikes(h, ip, cutoff) == |StrikePositions(Events(h), ip, cutoff)|
  {
    if h.Then? {
      StrikesAreCounted(h.past, ip, cutoff);
      OneMoreEvent(Events(h.past), h.event, ip, cutoff);
    }
  }

  lemma OneMoreEvent(ev: seq<Event>, e: Event, ip: IpAddr, cutoff: Instant)
    ensures
      var n, before, after := |ev|, StrikePositions(ev, ip, cutoff), StrikePositions(ev + [e], ip, cutoff);
      && n !in before
      && after == if MakesBan(e, ip) then {}
                  else if e.Failure? && e.ip == ip && e.at >= cutoff then before + {n}
                  else before
  {
    var all := ev + [e];
    assert all[|ev|] == e && forall i | 0 <= i < |ev| :: all[i] == ev[i];
    forall i | 0 <= i < |ev| ensures NoBanFrom(all, i, ip) <==> NoBanFrom(ev, i, ip) && !MakesBan(e, ip) {
      assert forall j | i <= j < |ev| :: all[j] == ev[j];
    }
  }

  // ---------------------------------------------------------------- caps

  /**
   * Every rejection has its cause, and an attempt that is turned away for one reason was not to be turned
   * away for an earlier one.
   */
  lemma DecisionHasCause(cfg: Config, h: History, ip: IpAddr, now: Instant)
    ensures
      var d := Decide(cfg, h, ip, now);
      var all, own, subnet := Held(h, Everyone), Held(h, Address(ip)), Held(h, Subnet(SubnetKeyOf(ip)));
      && (d == Rejected(TemporarilyBanned) <==>
            exists t :: Occurs(h, Failure(ip, t, true)) && t <= now < t + cfg.banDuration)
      && (d == Rejected(TooManyUnauthenticatedConnections) ==> all >= cfg.maxGlobal)
      && (d == Rejected(TooManyUnauthenticatedConnectionsForIp) ==> all < cfg.maxGlobal && own >= cfg.maxPerIp)
      && (d == Rejected(TooManyUnauthenticatedConnectionsForSubnet) ==>
            all < cfg.maxGlobal && own < Max(1, cfg.maxPerIp) && subnet >= cfg.maxPerSubnet)
      && (d == Rejected(ConnectionRateLimited) || d == Admitted ==>
            all < cfg.maxGlobal && own < Max(1, cfg.maxPerIp) && subnet < cfg.maxPerSubnet)
  {
    BannedExactly(cfg, h, ip, now);
  }

  // ---------------------------------------------------------------- rate

  /** Admissions of `ip` at `from` or later. */
  function AdmittedFrom(h: History, ip: IpAddr, from: Instant): nat {
    match h
    case Start => 0
    case Then(past, e) =>
      AdmittedFrom(past, ip, from) +
      if e.Attempt? && e.ip == ip && e.decision.Admitted? && e.at >= from then 1 else 0
  }

  /** From some moment on, the admissions of `ip` and one more exceed the burst and the rate. */
  ghost predicate OverRate(cfg: Config, h: History, ip: IpAddr, now: Instant) {
    || cfg.limits.burst < 1
    || exists from | from <= now ::
         (1 + AdmittedFrom(h, ip, from) - cfg.limits.burst) * 60_000_000_000 > cfg.limits.perMinute * (now - from)
  }

  /** What the log of a lifetime has granted from a start point on was admitted from then on. */
  lemma {:induction false} LifetimeCountsAdmissions(cfg: Config, h: History, ip: IpAddr, start: TB.Log)
    requires Faithful(cfg, h) && Lifetime(cfg, h, ip).Some? && TB.GrewFrom(Lifetime(cfg, h, ip).value, start)
    ensures TB.Granted(Lifetime(cfg, h, ip).value) - TB.GrantedBefore(start) <= AdmittedFrom(h, ip, start.at)
  {
    var log, past, e := Lifetime(cfg, h, ip).value, h.past, h.event;
    LifetimeIsGenuine(cfg, h, ip, e.at);
    TB.EveryWindowObeysTheBudget(cfg.limits, log, start);
    if Lifetime(cfg, past, ip).Some? && TB.GrewFrom(Lifetime(cfg, past, ip).value, start) {
      LifetimeCountsAdmissions(cfg, past, ip, start);
    }
  }

  /** A rate-limited attempt is over the rate by what was admitted in the history. */
  lemma RateLimitHasCause(cfg: Config, h: History, ip: IpAddr, now: Instant)
    requires Faithful(cfg, h) && EndsBy(h, now) && Decide(cfg, h, ip, now) == Rejected(ConnectionRateLimited)
    ensures OverRate(cfg, h, ip, now)
  {
    var log := LogAt(cfg, h, ip, now);
    TB.AllowsKeepsTheRate(cfg.limits, log, now);
    LifetimeIsGenuine(cfg, h, ip, now);
    if cfg.limits.burst >= 1 {
      var start :| TB.GrewFrom(log, start) &&
        (1 + TB.Granted(log) - TB.GrantedBefore(start) - cfg.limits.burst) * 60_000_000_000
        > cfg.limits.perMinute * (now - start.at);
      TB.EveryWindowObeysTheBudget(cfg.limits, log, start);
      if Lifetime(cfg, h, ip).Some? && log == Lifetime(cfg, h, ip).value {
        LifetimeCountsAdmissions(cfg, h, ip, start);
      }
      assert start.at <= now;
    }
  }

  /** All admissions of `ip`. */
  function Admissions(h: History, ip: IpAddr): nat {
    match h
    case Start => 0
    case Then(past, e) => Admissions(past, ip) + if e.Attempt? && e.ip == ip && e.decision.Admitted? then 1 else 0
  }

  /** Every call for `ip` since `earlier` found something to remember about it. */
  predicate BusySince(cfg: Config, h: History, earlier: History, ip: IpAddr) {
    || h == earlier
    || (&& h.Then? && BusySince(cfg, h.past, earlier, ip)
        && (h.event.ip == ip && !h.event.Released? ==> !Idle(cfg, h.past, ip, h.event.at)))
  }

  lemma {:induction false} LifetimeGoesOn(cfg: Config, h: History, earlier: History, ip: IpAddr)
    requires Faithful(cfg, h) && BusySince(cfg, h, earlier, ip)
    requires earlier.Then? && earlier.event.Attempt? && earlier.event.ip == ip && earlier.event.decision.Admitted?
    ensures Lifetime(cfg, h, ip).Some? && Lifetime(cfg, earlier, ip).Some? && EndsBy(earlier, h.event.at)
    ensures TB.GrewFrom(Lifetime(cfg, h, ip).value, Lifetime(cfg, earlier, ip).value)
    ensures TB.Granted(Lifetime(cfg, h, ip).value) - TB.Granted(Lifetime(cfg, earlier, ip).value)
         == Admissions(h, ip) - Admissions(earlier, ip)
  {
    if h != earlier {
      LifetimeGoesOn(cfg, h.past, earlier, ip);
    }
  }

  /**
   * The rate that the limiter is for: from an admission on, as long as the address stays busy, no more of
   * its connections are admitted than the burst and `perMinute` a minute.
   */
  lemma RateWhileBusy(cfg: Config, h: History, earlier: History, ip: IpAddr)
    requires Faithful(cfg, h) && BusySince(cfg, h, earlier, ip)
    requires earlier.Then? && earlier.event.Attempt? && earlier.event.ip == ip && earlier.event.decision.Admitted?
    ensures h.Then?
    ensures (Admissions(h, ip) - Admissions(earlier.past, ip) - cfg.limits.burst) * 60_000_000_000
         <= cfg.limits.perMinute * (h.event.at - earlier.event.at)
  {
    LifetimeGoesOn(cfg, h, earlier, ip);
    LifetimeIsGenuine(cfg, h, ip, h.event.at);
    var log, start := Lifetime(cfg, h, ip).value, Lifetime(cfg, earlier, ip).value;
    TB.EveryWindowKeepsTheRate(cfg.limits, log, start);
    MoreTimeMoreRoom(cfg.limits.perMinute, log.at - start.at, h.event.at - start.at);
  }

  lemma MoreTimeMoreRoom(perMinute: nat, a: int, b: int)
    requires a <= b
    ensures perMinute * a <= perMinute * b
  {
  }
}
