/**
 * Guards (src/admission.rs, AdmissionController and AdmissionGuard): every admitted connection owns
 * one, and giving it up, by authenticating or by being dropped, releases its slot exactly once. The
 * ghost set `live` of unreleased guards is what the three counters count.
 */
module AdmissionGuards {
  import opened Common
  import opened Network
  import opened AdmissionHistory
  import opened AdmissionCauses
  import opened Admission

  /** The guards of `live` that count towards `scope`. */
  ghost function GuardsIn(live: set<AdmissionGuard>, scope: Scope): set<AdmissionGuard> {
    set g | g in live && Covers(scope, g.peerIp)
  }

  lemma GuardsInAdds(live: set<AdmissionGuard>, g: AdmissionGuard, scope: Scope)
    requires g !in live
    ensures |GuardsIn(live + {g}, scope)| == |GuardsIn(live, scope)| + if Covers(scope, g.peerIp) then 1 else 0
  {
    if Covers(scope, g.peerIp) {
      assert GuardsIn(live + {g}, scope) == GuardsIn(live, scope) + {g};
    } else {
      assert GuardsIn(live + {g}, scope) == GuardsIn(live, scope);
    }
  }

  lemma GuardsInRemoves(live: set<AdmissionGuard>, g: AdmissionGuard, scope: Scope)
    requires g in live
    ensures |GuardsIn(live - {g}, scope)| == |GuardsIn(live, scope)| - if Covers(scope, g.peerIp) then 1 else 0
  {
    GuardsInAdds(live - {g}, g, scope);
    assert live - {g} + {g} == live;
  }

  /**
   * Every rejection has its cause, in the failures that were recorded, the guards that are live and the
   * connections that were admitted, and comes only if there was no cause for an earlier one. So an attempt
   * for which there is no cause is admitted.
   */
  ghost predicate Caused(cfg: Config, h: History, live: set<AdmissionGuard>, ip: IpAddr, now: Instant, d: Decision) {
    var all, own := |live|, |GuardsIn(live, Address(ip))|;
    var subnet := |GuardsIn(live, Subnet(SubnetKeyOf(ip)))|;
    && (d == Rejected(TemporarilyBanned) <==>
          exists t :: Occurs(h, Failure(ip, t, true)) && t <= now < t + cfg.banDuration)
    && (d == Rejected(TooManyUnauthenticatedConnections) ==> all >= cfg.maxGlobal)
    && (d == Rejected(TooManyUnauthenticatedConnectionsForIp) ==> all < cfg.maxGlobal && own >= cfg.maxPerIp)
    && (d == Rejected(TooManyUnauthenticatedConnectionsForSubnet) ==>
          all < cfg.maxGlobal && own < Max(1, cfg.maxPerIp) && subnet >= cfg.maxPerSubnet)
    && (d == Rejected(ConnectionRateLimited) ==> OverRate(cfg, h, ip, now))
    && (d == Rejected(ConnectionRateLimited) || d == Admitted ==>
          all < cfg.maxGlobal && own < Max(1, cfg.maxPerIp) && subnet < cfg.maxPerSubnet)
  }

  class AdmissionController {
    const state: AdmissionState
    ghost var live: set<AdmissionGuard>

    ghost predicate Valid()
      reads this, state, live
    {
      && state.Valid()
      && (forall g | g in live :: g.controller == this && g.subnet == SubnetKeyOf(g.peerIp) && !g.released)
      && (forall scope :: |GuardsIn(live, scope)| == Held(state.history, scope))
    }

    constructor (config: Config, now: Instant)
      ensures Valid() && fresh(state) && live == {}
      ensures state.config == config && state.history == Start && state.clock == now
    {
      state := new AdmissionState(config, now);
      live := {};
    }

    lemma AnswerIsCaused(ip: IpAddr, now: Instant)
      requires Valid() && state.clock <= now
      ensures Caused(state.config, state.history, live, ip, now, Decide(state.config, state.history, ip, now))
    {
      DecisionHasCause(state.config, state.history, ip, now);
      if Decide(state.config, state.history, ip, now) == Rejected(ConnectionRateLimited) {
        RateLimitHasCause(state.config, state.history, ip, now);
      }
      assert GuardsIn(live, Everyone) == live;
      assert |GuardsIn(live, Everyone)| == Held(state.history, Everyone);
    }

    /** Makes the guard of a connection that was just counted. */
    method HandOut(ip: IpAddr, subnet: SubnetKey) returns (guard: AdmissionGuard)
      requires state.Valid() && subnet == SubnetKeyOf(ip)
      requires forall g | g in live :: g.controller == this && g.subnet == SubnetKeyOf(g.peerIp) && !g.released
      requires forall scope :: |GuardsIn(live, scope)| + (if Covers(scope, ip) then 1 else 0) == Held(state.history, scope)
      modifies this`live
      ensures Valid() && fresh(guard) && guard.peerIp == ip && live == old(live) + {guard}
    {
      guard := new AdmissionGuard(this, ip, subnet);
      forall scope ensures |GuardsIn(live + {guard}, scope)| == Held(state.history, scope) {
        GuardsInAdds(live, guard, scope);
      }
      live := live + {guard};
    }

    /** Admits a connection and hands out its guard, or turns it away. */
    method TryAcquireAt(ip: IpAddr, now: Instant) returns (d: Decision, guard: AdmissionGuard?)
      requires Valid() && state.clock <= now
      modifies this, state
      ensures Valid() && state.clock == now
      ensures d == Decide(state.config, old(state.history), ip, now)
      ensures state.history == Then(old(state.history), Attempt(ip, now, d))
      ensures Caused(state.config, old(state.history), old(live), ip, now, d)
      ensures d.Rejected? ==> guard == null && live == old(live)
      ensures d.Admitted? ==> guard != null && fresh(guard) && guard.peerIp == ip && live == old(live) + {guard}
    {
      var subnet := SubnetKeyOf(ip);
      AnswerIsCaused(ip, now);
      d := state.TryAcquire(ip, subnet, now);
      guard := null;
      if d.Admitted? {
        guard := HandOut(ip, subnet);
      }
    }

    method RecordAuthFailureAt(ip: IpAddr, now: Instant) returns (banned: bool)
      requires Valid() && state.clock <= now
      modifies state
      ensures Valid() && state.clock == now
      ensures banned == Strikeout(state.config, old(state.history), ip, now)
      // the failures since the last ban that are not older than the window, and this one, reach the threshold
      ensures banned <==>
                |StrikePositions(Events(old(state.history)), ip, now - state.config.banWindow)| + 1 >= state.config.banThreshold
      ensures state.history == Then(old(state.history), Failure(ip, now, banned))
    {
      StrikesAreCounted(state.history, ip, now - state.config.banWindow);
      banned := state.RecordAuthFailure(ip, now);
    }
  }

  class AdmissionGuard {
    const controller: AdmissionController
    const peerIp: IpAddr
    const subnet: SubnetKey
    var released: bool

    constructor (controller: AdmissionController, peerIp: IpAddr, subnet: SubnetKey)
      ensures this.controller == controller && this.peerIp == peerIp && this.subnet == subnet && !released
    {
      this.controller := controller;
      this.peerIp := peerIp;
      this.subnet := subnet;
      released := false;
    }

    /** The guard is live in its controller, or has been released. */
    ghost predicate Owned()
      reads this, controller
    {
      released <==> this !in controller.live
    }

    /** Releases the slot, the first time only. */
    method Release(now: Instant)
      requires controller.Valid() && controller.state.clock <= now && Owned()
      modifies this, controller, controller.state
      ensures controller.Valid() && Owned() && released
      ensures controller.live == old(controller.live) - {this}
      ensures controller.state.clock == if old(released) then old(controller.state.clock) else now
      ensures controller.state.history
           == if old(released) then old(controller.state.history)
              else Then(old(controller.state.history), Released(peerIp, now))
    {
      if released {
        return;
      }
      ghost var live := controller.live;
      assert this in GuardsIn(live, Everyone) * GuardsIn(live, Subnet(subnet)) * GuardsIn(live, Address(peerIp));
      controller.state.Release(peerIp, subnet, now);
      released := true;
      forall scope ensures |GuardsIn(live - {this}, scope)| == Held(controller.state.history, scope) {
        GuardsInRemoves(live, this, scope);
      }
      controller.live := live - {this};
    }

    /** Consuming the guard on success also drops it, which must not release a second time. */
    method MarkAuthenticated(now: Instant, later: Instant)
      requires controller.Valid() && controller.state.clock <= now <= later && Owned()
      modifies this, controller, controller.state
      ensures controller.Valid() && Owned() && released
      ensures controller.live == old(controller.live) - {this}
      ensures controller.state.clock == if old(released) then old(controller.state.clock) else now
      ensures controller.state.history
           == if old(released) then old(controller.state.history)
              else Then(old(controller.state.history), Released(peerIp, now))
    {
      Release(now);
      Release(later);
    }
  }

  // ---------------------------------------------------------------- consequences

  /** In every valid state the counters are the numbers of unreleased guards, within the caps. */
  lemma CountersAreLiveGuards(c: AdmissionController, ip: IpAddr)
    requires c.Valid()
    ensures c.state.unauthenticated == |c.live| <= c.state.config.maxGlobal
    ensures
      var key := SubnetKeyOf(ip);
      var n := |GuardsIn(c.live, Subnet(key))|;
      && n == (if key in c.state.perSubnet then c.state.perSubnet[key] else 0)
      && (key in c.state.perSubnet <==> n > 0)
      && n <= c.state.config.maxPerSubnet
    ensures
      var n := |GuardsIn(c.live, Address(ip))|;
      && n == (if ip in c.state.perPeer then c.state.perPeer[ip].connections else 0)
      && n <= Max(1, c.state.config.maxPerIp)
  {
    CapsHold(c.state.config, c.state.history, ip);
    assert GuardsIn(c.live, Everyone) == c.live;
    assert |GuardsIn(c.live, Everyone)| == Held(c.state.history, Everyone);
    assert EntryOk(c.state.config, c.state.history, c.state.clock, ip, Lookup(c.state.perPeer, ip));
  }

  /** The addresses that failed to authenticate at or after `since`, or with a burst of zero tried to connect. */
  function SeenPeers(cfg: Config, h: History, since: Instant): set<IpAddr> {
    match h
    case Start => {}
    case Then(past, e) =>
      SeenPeers(cfg, past, since) + if Seen(cfg, h, e.ip, since) then {e.ip} else {}
  }

  lemma {:induction false} SeenPeersComplete(cfg: Config, h: History, ip: IpAddr, since: Instant)
    requires Seen(cfg, h, ip, since)
    ensures ip in SeenPeers(cfg, h, since)
  {
    if ip != h.event.ip {
      SeenPeersComplete(cfg, h.past, ip, since);
    }
  }

  /** With a burst of at least one, those are the addresses with such a failure and no others. */
  lemma {:induction false} SeenPeersFailed(cfg: Config, h: History, ip: IpAddr, since: Instant)
    requires cfg.limits.burst >= 1
    ensures ip in SeenPeers(cfg, h, since) <==> exists t, banned :: Occurs(h, Failure(ip, t, banned)) && t >= since
  {
    if h.Then? {
      SeenPeersFailed(cfg, h.past, ip, since);
      assert Occurs(h, h.event);
      assert forall t, banned | Occurs(h.past, Failure(ip, t, banned)) :: Occurs(h, Failure(ip, t, banned));
      if ip in SeenPeers(cfg, h, since) && ip !in SeenPeers(cfg, h.past, since) {
        SeenFailed(cfg, h, ip, since);
      }
      if ip == h.event.ip && Seen(cfg, h.past, ip, since) {
        SeenPeersComplete(cfg, h.past, ip, since);
      }
    }
  }

  lemma {:induction false} SeenFailed(cfg: Config, h: History, ip: IpAddr, since: Instant)
    requires cfg.limits.burst >= 1 && Seen(cfg, h, ip, since)
    ensures exists t, banned :: Occurs(h, Failure(ip, t, banned)) && t >= since
  {
    if Seen(cfg, h.past, ip, since) {
      SeenFailed(cfg, h.past, ip, since);
      var t, banned :| Occurs(h.past, Failure(ip, t, banned)) && t >= since;
      assert Occurs(h, Failure(ip, t, banned));
    } else {
      assert Occurs(h, Failure(ip, h.event.at, h.event.banned));
    }
  }

  ghost function PeersOf(live: set<AdmissionGuard>): set<IpAddr> {
    set g | g in live :: g.peerIp
  }

  lemma {:induction false} FewerPeersThanGuards(live: set<AdmissionGuard>)
    ensures |PeersOf(live)| <= |live|
    decreases |live|
  {
    if live != {} {
      var g :| g in live;
      FewerPeersThanGuards(live - {g});
      assert PeersOf(live) <= PeersOf(live - {g}) + {g.peerIp};
      SubsetSize(PeersOf(live), PeersOf(live - {g}) + {g.peerIp});
    }
  }

  lemma SubsetSize<T>(a: set<T>, b: set<T>)
    requires a <= b
    ensures |a| <= |b|
  {
    assert b == a + (b - a);
  }

  /** Every entry belongs to a live guard or to an address that was seen failing recently. */
  lemma PeerIsAccountedFor(c: AdmissionController, ip: IpAddr, since: Instant)
    requires c.Valid()
    requires ip in c.state.perPeer
    requires since <= c.state.lastPeerSweep - Horizon(c.state.config)
    ensures ip in PeersOf(c.live) || ip in SeenPeers(c.state.config, c.state.history, since)
  {
    var cfg, h := c.state.config, c.state.history;
    assert EntryOk(cfg, h, c.state.clock, ip, Lookup(c.state.perPeer, ip));
    if c.state.perPeer[ip].connections == 0 {
      SeenEarlier(cfg, h, ip, c.state.lastPeerSweep - Horizon(cfg), since);
      SeenPeersComplete(cfg, h, ip, since);
    } else {
      assert |GuardsIn(c.live, Address(ip))| > 0;
      var g :| g in GuardsIn(c.live, Address(ip));
    }
  }

  /**
   * The peer map never outgrows the global cap plus the addresses that failed recently: within the
   * longer of ban window and ban duration, and one sweep interval.
   */
  lemma PeerStateIsBounded(c: AdmissionController)
    requires c.Valid()
    ensures |c.state.perPeer|
         <= c.state.config.maxGlobal
            + |SeenPeers(c.state.config, c.state.history,
                         c.state.clock - Max(c.state.config.banWindow, c.state.config.banDuration) - 60 * SECOND)|
  {
    var since := c.state.clock - Horizon(c.state.config) - PEER_SWEEP_INTERVAL;
    var held, seen := PeersOf(c.live), SeenPeers(c.state.config, c.state.history, since);
    forall ip | ip in c.state.perPeer ensures ip in held + seen {
      PeerIsAccountedFor(c, ip, since);
    }
    SubsetSize(c.state.perPeer.Keys, held + seen);
    assert held + seen == (held - seen) + seen;
    SubsetSize(held - seen, held);
    FewerPeersThanGuards(c.live);
    CountersAreLiveGuards(c, V4(0, 0, 0, 0));
  }
}
