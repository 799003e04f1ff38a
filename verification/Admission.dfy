/**
 * The admission controller (src/admission.rs, AdmissionState): connection counters, peer entries
 * with a ban, a sliding window of failures and a token bucket, and two ways of evicting entries.
 *
 * Every method keeps `Valid()`, which ties the fields to the ghost `history` of calls, and answers as
 * the reference in AdmissionHistory.dfy does. Sweeping and pruning appear here and not there, so the
 * contracts also say that neither is ever observable.
 */
module Admission {
  import opened Common
  import opened Network
  import opened AdmissionHistory
  import TB = TokenBucket

  const PEER_SWEEP_INTERVAL: int := 60 * SECOND

  datatype PeerState = PeerState(
    connections: nat,
    failures: seq<Instant>,
    bannedUntil: Option<Instant>,
    bucket: TB.Bucket)

  function NewPeer(cfg: Config, now: Instant): PeerState {
    PeerState(0, [], None, TB.NewBucket(cfg.limits, now))
  }

  predicate IsBanned(p: PeerState, now: Instant) {
    p.bannedUntil.Some? && p.bannedUntil.value > now
  }

  predicate CanBeRemoved(p: PeerState) {
    p.connections == 0 && p.bannedUntil.None? && p.failures == []
  }

  /** What is left after dropping times before `oldest` from the front. */
  function Pruned(values: seq<Instant>, oldest: Instant): seq<Instant> {
    if values != [] && values[0] < oldest then Pruned(values[1..], oldest) else values
  }

  function Refreshed(cfg: Config, p: PeerState, now: Instant): PeerState {
    p.(bannedUntil := if p.bannedUntil.Some? && p.bannedUntil.value <= now then None else p.bannedUntil,
       failures := Pruned(p.failures, now - cfg.banWindow))
  }

  method PruneBefore(values: seq<Instant>, oldest: Instant) returns (r: seq<Instant>)
    ensures r == Pruned(values, oldest)
  {
    r := values;
    while r != [] && r[0] < oldest
      invariant Pruned(r, oldest) == Pruned(values, oldest)
      decreases |r|
    {
      r := r[1..];
    }
  }

  method RefreshTransientState(cfg: Config, p: PeerState, now: Instant) returns (r: PeerState)
    ensures r == Refreshed(cfg, p, now)
  {
    r := p;
    if p.bannedUntil.Some? && p.bannedUntil.value <= now {
      r := r.(bannedUntil := None);
    }
    var kept := PruneBefore(r.failures, now - cfg.banWindow);
    r := r.(failures := kept);
  }

  /** One sweep: every entry is refreshed, and exactly those with nothing left to remember go. */
  method RetainPeers(cfg: Config, peers: map<IpAddr, PeerState>, now: Instant)
    returns (kept: map<IpAddr, PeerState>)
    ensures forall ip :: ip in kept <==> ip in peers && !CanBeRemoved(Refreshed(cfg, peers[ip], now))
    ensures forall ip | ip in kept :: kept[ip] == Refreshed(cfg, peers[ip], now)
  {
    kept := map[];
    var todo := peers.Keys;
    while todo != {}
      invariant todo <= peers.Keys
      invariant forall ip :: ip in kept <==>
                  ip in peers && ip !in todo && !CanBeRemoved(Refreshed(cfg, peers[ip], now))
      invariant forall ip | ip in kept :: kept[ip] == Refreshed(cfg, peers[ip], now)
      decreases |todo|
    {
      var ip :| ip in todo;
      var peer := RefreshTransientState(cfg, peers[ip], now);
      if !CanBeRemoved(peer) {
        kept := kept[ip := peer];
      }
      todo := todo - {ip};
    }
  }

  // ---------------------------------------------------------------- entries and history

  predicate SortedUpTo(times: seq<Instant>, bound: Instant) {
    && (forall i, j | 0 <= i < j < |times| :: times[i] <= times[j])
    && (forall i | 0 <= i < |times| :: times[i] <= bound)
  }

  /** Times not before `cutoff`. */
  function CountSince(times: seq<Instant>, cutoff: Instant): nat {
    if times == [] then 0 else CountSince(times[1..], cutoff) + if times[0] >= cutoff then 1 else 0
  }

  /** Dropping from the front what is too old loses nothing that a later look would count. */
  lemma {:induction false} PruneKeepsCount(times: seq<Instant>, oldest: Instant, cutoff: Instant)
    requires oldest <= cutoff
    ensures CountSince(Pruned(times, oldest), cutoff) == CountSince(times, cutoff)
  {
    if times != [] && times[0] < oldest {
      PruneKeepsCount(times[1..], oldest, cutoff);
    }
  }

  /** On times in order, what is left after pruning is all inside the window. */
  lemma {:induction false} PrunedIsWindow(times: seq<Instant>, bound: Instant, oldest: Instant)
    requires SortedUpTo(times, bound)
    ensures |Pruned(times, oldest)| == CountSince(times, oldest)
    ensures SortedUpTo(Pruned(times, oldest), bound)
  {
    if times != [] {
      PrunedIsWindow(times[1..], bound, oldest);
      if times[0] >= oldest {
        PruneNothing(times[1..], oldest);
      }
    }
  }

  lemma {:induction false} PruneShortens(times: seq<Instant>, oldest: Instant)
    ensures |Pruned(times, oldest)| <= |times|
    ensures |Pruned(times, oldest)| == |times| ==> Pruned(times, oldest) == times
  {
    if times != [] && times[0] < oldest {
      PruneShortens(times[1..], oldest);
    }
  }

  lemma PruneNothing(times: seq<Instant>, oldest: Instant)
    requires forall i | 0 <= i < |times| :: oldest <= times[i]
    ensures Pruned(times, oldest) == times
  {
  }

  lemma {:induction false} CountAppends(times: seq<Instant>, t: Instant, cutoff: Instant)
    ensures CountSince(times + [t], cutoff) == CountSince(times, cutoff) + if t >= cutoff then 1 else 0
  {
    if times != [] {
      assert (times + [t])[1..] == times[1..] + [t];
      CountAppends(times[1..], t, cutoff);
    }
  }

  /** An entry that remembers what the history says about its address, from `clock` on. */
  ghost predicate Agrees(cfg: Config, h: History, clock: Instant, ip: IpAddr, p: PeerState) {
    && p.connections == Held(h, Address(ip))
    && SortedUpTo(p.failures, clock)
    && (forall c | c >= clock - cfg.banWindow :: CountSince(p.failures, c) == Strikes(h, ip, c))
    && (forall t | t >= clock :: IsBanned(p, t) <==> BannedAt(cfg, h, ip, t))
    && Lifetime(cfg, h, ip).Some?
    && p.bucket == TB.BucketAfter(cfg.limits, Lifetime(cfg, h, ip).value)
  }

  ghost predicate EntryOk(cfg: Config, h: History, clock: Instant, ip: IpAddr, entry: Option<PeerState>) {
    match entry
    case None => Idle(cfg, h, ip, clock)
    case Some(p) => Agrees(cfg, h, clock, ip, p)
  }

  /** The entry stays right while time passes. */
  lemma EntryAges(cfg: Config, h: History, clock: Instant, now: Instant, ip: IpAddr, entry: Option<PeerState>)
    requires Faithful(cfg, h) && EndsBy(h, clock) && clock <= now
    requires EntryOk(cfg, h, clock, ip, entry)
    ensures EntryOk(cfg, h, now, ip, entry)
  {
    if entry.None? {
      StaysIdle(cfg, h, ip, clock, now);
    }
  }

  /** Refreshing keeps the entry right, and it can go exactly when the address is idle. */
  lemma RefreshKeeps(cfg: Config, h: History, now: Instant, ip: IpAddr, p: PeerState)
    requires Agrees(cfg, h, now, ip, p)
    ensures Agrees(cfg, h, now, ip, Refreshed(cfg, p, now))
    ensures CanBeRemoved(Refreshed(cfg, p, now)) <==> Idle(cfg, h, ip, now)
    ensures |Refreshed(cfg, p, now).failures| == Strikes(h, ip, now - cfg.banWindow)
    ensures Refreshed(cfg, p, now).bannedUntil.Some? <==> BannedAt(cfg, h, ip, now)
  {
    var oldest := now - cfg.banWindow;
    PrunedIsWindow(p.failures, now, oldest);
    forall c | c >= oldest ensures CountSince(Pruned(p.failures, oldest), c) == Strikes(h, ip, c) {
      PruneKeepsCount(p.failures, oldest, c);
    }
    assert IsBanned(p, now) <==> BannedAt(cfg, h, ip, now);
  }

  /** Events of other addresses do not concern an entry. */
  lemma OthersKeep(cfg: Config, h: History, clock: Instant, ip: IpAddr, entry: Option<PeerState>, e: Event)
    requires EntryOk(cfg, h, clock, ip, entry)
    requires e.ip != ip
    ensures EntryOk(cfg, Then(h, e), clock, ip, entry)
  {
    assert Lifetime(cfg, Then(h, e), ip) == Lifetime(cfg, h, ip);
    assert forall c :: Strikes(Then(h, e), ip, c) == Strikes(h, ip, c);
    assert forall t :: BannedAt(cfg, Then(h, e), ip, t) <==> BannedAt(cfg, h, ip, t);
  }

  /** An entry as `cleanup_peer` leaves it: refreshed, and present exactly when there is something to remember. */
  ghost predicate Clean(cfg: Config, h: History, now: Instant, ip: IpAddr, entry: Option<PeerState>) {
    && EntryOk(cfg, h, now, ip, entry)
    && (entry.None? <==> Idle(cfg, h, ip, now))
    && (entry.Some? ==>
          && |entry.value.failures| == Strikes(h, ip, now - cfg.banWindow)
          && (entry.value.bannedUntil.Some? <==> BannedAt(cfg, h, ip, now)))
  }

  function EntryOrNew(cfg: Config, entry: Option<PeerState>, now: Instant): PeerState {
    if entry.Some? then entry.value else NewPeer(cfg, now)
  }

  /** The entry that a call continues carries the state of the rate limiter log that it continues. */
  lemma BucketOfEntry(cfg: Config, h: History, now: Instant, ip: IpAddr, entry: Option<PeerState>)
    requires Faithful(cfg, h) && EndsBy(h, now)
    requires Clean(cfg, h, now, ip, entry)
    ensures EntryOrNew(cfg, entry, now).bucket == TB.BucketAfter(cfg.limits, LogAt(cfg, h, ip, now))
    ensures TB.TryConsume(EntryOrNew(cfg, entry, now).bucket, cfg.limits, now).1
       <==> TB.Allows(cfg.limits, LogAt(cfg, h, ip, now), now)
  {
    LifetimeIsGenuine(cfg, h, ip, now);
    TB.BucketIsExact(cfg.limits, LogAt(cfg, h, ip, now), now);
  }

  /** An attempt turned away before the rate limiter leaves the entry as it is. */
  lemma TurnedAwayKeeps(cfg: Config, h: History, now: Instant, ip: IpAddr, entry: Option<PeerState>, why: RejectReason)
    requires Clean(cfg, h, now, ip, entry)
    requires why != ConnectionRateLimited
    ensures EntryOk(cfg, Then(h, Attempt(ip, now, Rejected(why))), now, ip, entry)
  {
    var h' := Then(h, Attempt(ip, now, Rejected(why)));
    assert forall c :: Strikes(h', ip, c) == Strikes(h, ip, c);
    assert forall t :: BannedAt(cfg, h', ip, t) <==> BannedAt(cfg, h, ip, t);
  }

  /** An attempt that reaches the rate limiter leaves the entry with the bucket and count it writes. */
  lemma RateLimiterKeeps(cfg: Config, h: History, now: Instant, ip: IpAddr, entry: Option<PeerState>, d: Decision)
    requires Faithful(cfg, h) && EndsBy(h, now)
    requires Clean(cfg, h, now, ip, entry)
    requires !BannedAt(cfg, h, ip, now)
    requires d == if TB.Allows(cfg.limits, LogAt(cfg, h, ip, now), now) then Admitted else Rejected(ConnectionRateLimited)
    ensures
      var p := EntryOrNew(cfg, entry, now);
      var p' := p.(bucket := TB.TryConsume(p.bucket, cfg.limits, now).0,
                   connections := p.connections + if d.Admitted? then 1 else 0);
      Agrees(cfg, Then(h, Attempt(ip, now, d)), now, ip, p')
  {
    BucketOfEntry(cfg, h, now, ip, entry);
    var h' := Then(h, Attempt(ip, now, d));
    assert forall c :: Strikes(h', ip, c) == Strikes(h, ip, c);
    assert forall t :: BannedAt(cfg, h', ip, t) <==> BannedAt(cfg, h, ip, t);
    NewEntryFits(cfg, h, now, ip, entry);
  }

  /** A new entry has nothing to remember, as the history of an idle address. */
  lemma NewEntryFits(cfg: Config, h: History, now: Instant, ip: IpAddr, entry: Option<PeerState>)
    requires Faithful(cfg, h) && EndsBy(h, now)
    requires Clean(cfg, h, now, ip, entry)
    ensures
      var p := EntryOrNew(cfg, entry, now);
      && p.connections == Held(h, Address(ip))
      && SortedUpTo(p.failures, now)
      && |p.failures| == Strikes(h, ip, now - cfg.banWindow)
      && (forall c | c >= now - cfg.banWindow :: CountSince(p.failures, c) == Strikes(h, ip, c))
      && (forall t | t >= now :: IsBanned(p, t) <==> BannedAt(cfg, h, ip, t))
  {
    if entry.None? {
      forall t | t >= now ensures !BannedAt(cfg, h, ip, t) {
        StaysIdle(cfg, h, ip, now, t);
      }
      forall c | c >= now - cfg.banWindow ensures Strikes(h, ip, c) == 0 {
        WindowShrinks(h, ip, now - cfg.banWindow, c);
      }
    }
  }

  /** A failure below the threshold is remembered. */
  lemma StrikeKeeps(cfg: Config, h: History, now: Instant, ip: IpAddr, entry: Option<PeerState>)
    requires Faithful(cfg, h) && EndsBy(h, now)
    requires Clean(cfg, h, now, ip, entry)
    ensures
      var p := EntryOrNew(cfg, entry, now);
      && Pruned(p.failures, now - cfg.banWindow) == p.failures
      && (Strikeout(cfg, h, ip, now) <==> |p.failures| + 1 >= cfg.banThreshold)
      && Agrees(cfg, Then(h, Failure(ip, now, false)), now, ip, p.(failures := p.failures + [now]))
  {
    NewEntryFits(cfg, h, now, ip, entry);
    BucketOfEntry(cfg, h, now, ip, entry);
    var p := EntryOrNew(cfg, entry, now);
    PrunedIsWindow(p.failures, now, now - cfg.banWindow);
    PruneShortens(p.failures, now - cfg.banWindow);
    var h' := Then(h, Failure(ip, now, false));
    forall c | c >= now - cfg.banWindow ensures CountSince(p.failures + [now], c) == Strikes(h', ip, c) {
      CountAppends(p.failures, now, c);
    }
    assert forall t :: BannedAt(cfg, h', ip, t) <==> BannedAt(cfg, h, ip, t);
  }

  /** A failure that reaches the threshold becomes a ban and clears the window. */
  lemma BanKeeps(cfg: Config, h: History, now: Instant, ip: IpAddr, entry: Option<PeerState>)
    requires Faithful(cfg, h) && EndsBy(h, now)
    requires Clean(cfg, h, now, ip, entry)
    ensures
      var p := EntryOrNew(cfg, entry, now);
      Agrees(cfg, Then(h, Failure(ip, now, true)), now, ip,
             p.(failures := [], bannedUntil := Some(now + cfg.banDuration)))
  {
    BucketOfEntry(cfg, h, now, ip, entry);
    NewEntryFits(cfg, h, now, ip, entry);
    var h' := Then(h, Failure(ip, now, true));
    forall t | t >= now ensures BannedAt(cfg, h', ip, t) <==> t < now + cfg.banDuration {
      if BannedAt(cfg, h, ip, t) {
        BanRunsOut(cfg, h, ip, now, t);
      }
    }
  }

  /** A release leaves the entry with one connection less. */
  lemma ReleaseKeeps(cfg: Config, h: History, now: Instant, ip: IpAddr, p: PeerState)
    requires Agrees(cfg, h, now, ip, p)
    requires p.connections > 0
    ensures Agrees(cfg, Then(h, Released(ip, now)), now, ip, p.(connections := p.connections - 1))
  {
    var h' := Then(h, Released(ip, now));
    assert forall c :: Strikes(h', ip, c) == Strikes(h, ip, c);
    assert forall t :: BannedAt(cfg, h', ip, t) <==> BannedAt(cfg, h, ip, t);
  }

  // ---------------------------------------------------------------- why an entry is kept

  function Horizon(cfg: Config): nat {
    Max(cfg.banWindow, cfg.banDuration)
  }

  /**
   * `ip` failed to authenticate at or after `since`. With a burst of zero an attempt counts as well: it
   * creates an entry that holds no connection.
   */
  predicate Seen(cfg: Config, h: History, ip: IpAddr, since: Instant) {
    match h
    case Start => false
    case Then(past, e) =>
      || (e.ip == ip && e.at >= since && (e.Failure? || (e.Attempt? && cfg.limits.burst == 0)))
      || Seen(cfg, past, ip, since)
  }

  lemma {:induction false} SeenEarlier(cfg: Config, h: History, ip: IpAddr, since: Instant, earlier: Instant)
    requires Seen(cfg, h, ip, since) && earlier <= since
    ensures Seen(cfg, h, ip, earlier)
  {
    if Seen(cfg, h.past, ip, since) {
      SeenEarlier(cfg, h.past, ip, since, earlier);
    }
  }

  /** A running ban and a failure in the window both come from a failure within the horizon. */
  lemma {:induction false} BusyWasSeen(cfg: Config, h: History, ip: IpAddr, now: Instant)
    requires BannedAt(cfg, h, ip, now) || Strikes(h, ip, now - cfg.banWindow) > 0
    ensures Seen(cfg, h, ip, now - Horizon(cfg))
  {
    if BannedAt(cfg, h.past, ip, now) || Strikes(h.past, ip, now - cfg.banWindow) > 0 {
      BusyWasSeen(cfg, h.past, ip, now);
    }
  }

  /** An entry without a connection is there because of something recent, as of the sweep at `sweep`. */
  ghost predicate Justified(cfg: Config, h: History, sweep: Instant, ip: IpAddr, p: PeerState) {
    p.connections == 0 ==> Seen(cfg, h, ip, sweep - Horizon(cfg))
  }

  /** An entry that survives a refresh at `now` is justified as of any sweep up to `now`. */
  lemma SurvivorIsJustified(cfg: Config, h: History, now: Instant, sweep: Instant, ip: IpAddr, p: PeerState)
    requires Agrees(cfg, h, now, ip, p)
    requires !Idle(cfg, h, ip, now)
    requires sweep <= now
    ensures Justified(cfg, h, sweep, ip, p)
  {
    if p.connections == 0 {
      BusyWasSeen(cfg, h, ip, now);
      SeenEarlier(cfg, h, ip, now - Horizon(cfg), sweep - Horizon(cfg));
    }
  }

  // ---------------------------------------------------------------- the controller state

  ghost predicate SubnetsOk(h: History, perSubnet: map<SubnetKey, nat>) {
    forall s ::
      && (s in perSubnet ==> perSubnet[s] > 0)
      && Held(h, Subnet(s)) == if s in perSubnet then perSubnet[s] else 0
  }

  ghost predicate PeersOk(cfg: Config, h: History, clock: Instant, sweep: Instant, perPeer: map<IpAddr, PeerState>) {
    && (forall ip :: EntryOk(cfg, h, clock, ip, Lookup(perPeer, ip)))
    && (forall ip | ip in perPeer :: Justified(cfg, h, sweep, ip, perPeer[ip]))
  }

  /** As `PeersOk`, but nothing is said about why the entry of `but` is kept. */
  ghost predicate PeersOkBut(cfg: Config, h: History, clock: Instant, sweep: Instant, perPeer: map<IpAddr, PeerState>, but: IpAddr) {
    && (forall ip :: EntryOk(cfg, h, clock, ip, Lookup(perPeer, ip)))
    && (forall ip | ip in perPeer && ip != but :: Justified(cfg, h, sweep, ip, perPeer[ip]))
  }

  /** Time passes. */
  lemma PeersAge(cfg: Config, h: History, clock: Instant, now: Instant, sweep: Instant, perPeer: map<IpAddr, PeerState>)
    requires Faithful(cfg, h) && EndsBy(h, clock) && clock <= now
    requires PeersOk(cfg, h, clock, sweep, perPeer)
    ensures PeersOk(cfg, h, now, sweep, perPeer)
  {
    forall ip ensures EntryOk(cfg, h, now, ip, Lookup(perPeer, ip)) {
      EntryAges(cfg, h, clock, now, ip, Lookup(perPeer, ip));
    }
  }

  /** A sweep keeps every entry right, and justifies what it keeps. */
  lemma SweepKeeps(cfg: Config, h: History, now: Instant, sweep: Instant, peers: map<IpAddr, PeerState>, kept: map<IpAddr, PeerState>)
    requires PeersOk(cfg, h, now, sweep, peers)
    requires forall ip :: ip in kept <==> ip in peers && !CanBeRemoved(Refreshed(cfg, peers[ip], now))
    requires forall ip | ip in kept :: kept[ip] == Refreshed(cfg, peers[ip], now)
    ensures PeersOk(cfg, h, now, now, kept)
  {
    forall ip
      ensures EntryOk(cfg, h, now, ip, Lookup(kept, ip))
      ensures ip in kept ==> Justified(cfg, h, now, ip, kept[ip])
    {
      assert EntryOk(cfg, h, now, ip, Lookup(peers, ip));
      if ip in peers {
        RefreshKeeps(cfg, h, now, ip, peers[ip]);
        if ip in kept {
          SurvivorIsJustified(cfg, h, now, now, ip, kept[ip]);
        }
      }
    }
  }

  /** Replacing one right entry by another keeps all entries right. */
  lemma ReplaceKeeps(cfg: Config, h: History, now: Instant, sweep: Instant, peers: map<IpAddr, PeerState>, after: map<IpAddr, PeerState>, ip: IpAddr)
    requires PeersOkBut(cfg, h, now, sweep, peers, ip)
    requires forall other | other != ip :: Lookup(after, other) == Lookup(peers, other)
    requires EntryOk(cfg, h, now, ip, Lookup(after, ip))
    requires ip in after ==> Justified(cfg, h, sweep, ip, after[ip])
    ensures PeersOk(cfg, h, now, sweep, after)
  {
    forall other
      ensures EntryOk(cfg, h, now, other, Lookup(after, other))
      ensures other in after ==> Justified(cfg, h, sweep, other, after[other])
    {
      if other != ip {
        assert Lookup(after, other) == Lookup(peers, other);
        assert EntryOk(cfg, h, now, other, Lookup(peers, other));
      }
    }
  }

  /** Replacing the entry of `e.ip` after event `e` keeps all entries right. */
  lemma EventKeeps(cfg: Config, h: History, e: Event, now: Instant, sweep: Instant, peers: map<IpAddr, PeerState>, after: map<IpAddr, PeerState>)
    requires PeersOk(cfg, h, now, sweep, peers)
    requires forall ip | ip != e.ip :: Lookup(after, ip) == Lookup(peers, ip)
    requires EntryOk(cfg, Then(h, e), now, e.ip, Lookup(after, e.ip))
    ensures PeersOkBut(cfg, Then(h, e), now, sweep, after, e.ip)
    ensures (e.ip in after ==> Justified(cfg, Then(h, e), sweep, e.ip, after[e.ip]))
            ==> PeersOk(cfg, Then(h, e), now, sweep, after)
  {
    forall ip
      ensures EntryOk(cfg, Then(h, e), now, ip, Lookup(after, ip))
      ensures ip in after && ip != e.ip ==> Justified(cfg, Then(h, e), sweep, ip, after[ip])
    {
      if ip != e.ip {
        assert Lookup(after, ip) == Lookup(peers, ip);
        OthersKeep(cfg, h, now, ip, Lookup(peers, ip), e);
      }
    }
  }

  /** The subnet counters after event `e`. */
  lemma SubnetsKeep(h: History, e: Event, subnets: map<SubnetKey, nat>)
    requires SubnetsOk(h, subnets)
    ensures
      var s := SubnetKeyOf(e.ip);
      var n := if s in subnets then subnets[s] else 0;
      && (e.Attempt? && e.decision.Admitted? ==> SubnetsOk(Then(h, e), subnets[s := n + 1]))
      && (e.Released? && n > 1 ==> SubnetsOk(Then(h, e), subnets[s := n - 1]))
      && (e.Released? && n == 1 ==> SubnetsOk(Then(h, e), subnets - {s}))
      && (e.Failure? || (e.Attempt? && e.decision.Rejected?) ==> SubnetsOk(Then(h, e), subnets))
  {
  }

  /** With a burst of at least one, an attempt never leaves a new entry without a connection. */
  lemma AttemptIsJustified(cfg: Config, h: History, now: Instant, sweep: Instant, ip: IpAddr, entry: Option<PeerState>, d: Decision, p: PeerState)
    requires Clean(cfg, h, now, ip, entry) && sweep <= now
    requires d == if TB.Allows(cfg.limits, LogAt(cfg, h, ip, now), now) then Admitted else Rejected(ConnectionRateLimited)
    requires p.connections == EntryOrNew(cfg, entry, now).connections + if d.Admitted? then 1 else 0
    ensures Justified(cfg, Then(h, Attempt(ip, now, d)), sweep, ip, p)
  {
    if entry.None? {
      FreshLogAllows(cfg.limits, now);
    } else {
      SurvivorIsJustified(cfg, h, now, sweep, ip, entry.value);
    }
  }

  class AdmissionState {
    const config: Config
    var unauthenticated: nat
    var perSubnet: map<SubnetKey, nat>
    var perPeer: map<IpAddr, PeerState>
    var lastPeerSweep: Instant
    ghost var history: History
    ghost var clock: Instant

    /** The counters are those of the connections held. */
    ghost predicate Counted()
      reads this
    {
      && Faithful(config, history) && EndsBy(history, clock)
      && 0 <= clock - lastPeerSweep < PEER_SWEEP_INTERVAL
      && unauthenticated == Held(history, Everyone)
      && SubnetsOk(history, perSubnet)
    }

    ghost predicate Valid()
      reads this
    {
      Counted() && PeersOk(config, history, clock, lastPeerSweep, perPeer)
    }

    constructor (config: Config, now: Instant)
      ensures Valid() && this.config == config && history == Start && clock == now
    {
      this.config := config;
      unauthenticated := 0;
      perSubnet := map[];
      perPeer := map[];
      lastPeerSweep := now;
      history := Start;
      clock := now;
    }

    /** Sweeps all entries when the last sweep is a minute old. */
    method MaybeCleanupPeers(now: Instant)
      requires Valid() && clock <= now
      modifies this`perPeer, this`lastPeerSweep, this`clock
      ensures Valid() && clock == now
    {
      PeersAge(config, history, clock, now, lastPeerSweep, perPeer);
      clock := now;
      if now - lastPeerSweep < PEER_SWEEP_INTERVAL {
        return;
      }
      var kept := RetainPeers(config, perPeer, now);
      SweepKeeps(config, history, now, lastPeerSweep, perPeer, kept);
      perPeer := kept;
      lastPeerSweep := now;
    }

    /** Refreshes one entry and removes it when nothing is left to remember. */
    method CleanupPeer(ip: IpAddr, now: Instant)
      requires Counted() && clock == now
      requires PeersOkBut(config, history, clock, lastPeerSweep, perPeer, ip)
      modifies this`perPeer
      ensures Valid()
      ensures Clean(config, history, now, ip, Lookup(perPeer, ip))
      ensures forall other | other != ip :: Lookup(perPeer, other) == old(Lookup(perPeer, other))
    {
      assert EntryOk(config, history, now, ip, Lookup(perPeer, ip));
      if ip !in perPeer {
        ReplaceKeeps(config, history, now, lastPeerSweep, perPeer, perPeer, ip);
        return;
      }
      RefreshKeeps(config, history, now, ip, perPeer[ip]);
      var peer := RefreshTransientState(config, perPeer[ip], now);
      if CanBeRemoved(peer) {
        perPeer := perPeer - {ip};
      } else {
        SurvivorIsJustified(config, history, now, lastPeerSweep, ip, peer);
        perPeer := perPeer[ip := peer];
      }
      ReplaceKeeps(config, history, now, lastPeerSweep, old(perPeer), perPeer, ip);
    }

    /**
     * Answers a connection attempt. The answer is the reference decision for the history so far, whatever
     * was pruned, swept or removed before.
     */
    method TryAcquire(ip: IpAddr, subnet: SubnetKey, now: Instant) returns (d: Decision)
      requires Valid() && clock <= now
      requires subnet == SubnetKeyOf(ip)
      modifies this
      ensures Valid() && clock == now
      ensures d == Decide(config, old(history), ip, now)
      ensures history == Then(old(history), Attempt(ip, now, d))
    {
      MaybeCleanupPeers(now);
      CleanupPeer(ip, now);
      d := CheckCaps(ip, subnet, now);
      if d.Rejected? {
        ghost var e := Attempt(ip, now, d);
        TurnedAwayKeeps(config, history, now, ip, Lookup(perPeer, ip), d.reason);
        if ip in perPeer {
          SurvivorIsJustified(config, history, now, lastPeerSweep, ip, perPeer[ip]);
        }
        EventKeeps(config, history, e, now, lastPeerSweep, perPeer, perPeer);
        SubnetsKeep(history, e, perSubnet);
        history := Then(history, e);
        return;
      }
      d := ConsumeToken(ip, subnet, now);
    }

    /** The checks that come before the rate limiter; `Admitted` means that all of them passed. */
    method CheckCaps(ip: IpAddr, subnet: SubnetKey, now: Instant) returns (d: Decision)
      requires Valid() && clock == now
      requires subnet == SubnetKeyOf(ip)
      requires Clean(config, history, now, ip, Lookup(perPeer, ip))
      ensures d != Rejected(ConnectionRateLimited)
      ensures d.Rejected? ==> d == Decide(config, history, ip, now)
      ensures d.Admitted? ==>
                && !BannedAt(config, history, ip, now)
                && Decide(config, history, ip, now)
                   == if TB.Allows(config.limits, LogAt(config, history, ip, now), now) then Admitted
                      else Rejected(ConnectionRateLimited)
    {
      if ip in perPeer && IsBanned(perPeer[ip], now) {
        return Rejected(TemporarilyBanned);
      }
      if unauthenticated >= config.maxGlobal {
        return Rejected(TooManyUnauthenticatedConnections);
      }
      if ip in perPeer && perPeer[ip].connections >= config.maxPerIp {
        return Rejected(TooManyUnauthenticatedConnectionsForIp);
      }
      var subnetConnections := if subnet in perSubnet then perSubnet[subnet] else 0;
      if subnetConnections >= config.maxPerSubnet {
        return Rejected(TooManyUnauthenticatedConnectionsForSubnet);
      }
      return Admitted;
    }

    /** Takes a token of the entry, which is created if need be, and counts the connection. */
    method ConsumeToken(ip: IpAddr, subnet: SubnetKey, now: Instant) returns (d: Decision)
      requires Valid() && clock == now
      requires subnet == SubnetKeyOf(ip)
      requires Clean(config, history, now, ip, Lookup(perPeer, ip))
      requires !BannedAt(config, history, ip, now)
      requires Decide(config, history, ip, now)
               == if TB.Allows(config.limits, LogAt(config, history, ip, now), now) then Admitted
                  else Rejected(ConnectionRateLimited)
      modifies this`unauthenticated, this`perSubnet, this`perPeer, this`history
      ensures Valid()
      ensures d == Decide(config, old(history), ip, now)
      ensures history == Then(old(history), Attempt(ip, now, d))
    {
      ghost var entry := Lookup(perPeer, ip);
      BucketOfEntry(config, history, now, ip, entry);
      var peer := if ip in perPeer then perPeer[ip] else NewPeer(config, now);
      var (bucket, granted) := TB.TryConsume(peer.bucket, config.limits, now);
      peer := peer.(bucket := bucket);
      if granted {
        d := Admitted;
        unauthenticated := unauthenticated + 1;
        peer := peer.(connections := peer.connections + 1);
        perSubnet := perSubnet[subnet := (if subnet in perSubnet then perSubnet[subnet] else 0) + 1];
      } else {
        d := Rejected(ConnectionRateLimited);
      }
      perPeer := perPeer[ip := peer];
      ghost var e := Attempt(ip, now, d);
      RateLimiterKeeps(config, history, now, ip, entry, d);
      AttemptIsJustified(config, history, now, lastPeerSweep, ip, entry, d, peer);
      EventKeeps(config, history, e, now, lastPeerSweep, old(perPeer), perPeer);
      SubnetsKeep(history, e, old(perSubnet));
      history := Then(history, e);
    }

    /** Records a failed authentication; true when it makes a ban. */
    method RecordAuthFailure(ip: IpAddr, now: Instant) returns (banned: bool)
      requires Valid() && clock <= now
      modifies this
      ensures Valid() && clock == now
      ensures banned == Strikeout(config, old(history), ip, now)
      ensures history == Then(old(history), Failure(ip, now, banned))
    {
      MaybeCleanupPeers(now);
      CleanupPeer(ip, now);
      ghost var entry := Lookup(perPeer, ip);
      StrikeKeeps(config, history, now, ip, entry);
      BanKeeps(config, history, now, ip, entry);
      var peer := if ip in perPeer then perPeer[ip] else NewPeer(config, now);
      var failures := PruneBefore(peer.failures, now - config.banWindow);
      failures := failures + [now];
      banned := |failures| >= config.banThreshold;
      if banned {
        peer := peer.(failures := [], bannedUntil := Some(now + config.banDuration));
      } else {
        peer := peer.(failures := failures);
      }
      ghost var peers := perPeer;
      perPeer := perPeer[ip := peer];
      ghost var e := Failure(ip, now, banned);
      EventKeeps(config, history, e, now, lastPeerSweep, peers, perPeer);
      SubnetsKeep(history, e, perSubnet);
      history := Then(history, e);
    }

    /** Gives back the slot of one admitted connection of `ip`. */
    method Release(ip: IpAddr, subnet: SubnetKey, now: Instant)
      requires Valid() && clock <= now
      requires subnet == SubnetKeyOf(ip)
      requires Holds(history, ip)
      modifies this
      ensures Valid() && clock == now
      ensures history == Then(old(history), Released(ip, now))
      ensures unauthenticated == old(unauthenticated) - 1
    {
      MaybeCleanupPeers(now);
      assert EntryOk(config, history, now, ip, Lookup(perPeer, ip));
      ReleaseKeeps(config, history, now, ip, perPeer[ip]);
      if unauthenticated > 0 {
        unauthenticated := unauthenticated - 1;
      }
      ghost var subnets := perSubnet;
      if subnet in perSubnet {
        if perSubnet[subnet] > 1 {
          perSubnet := perSubnet[subnet := perSubnet[subnet] - 1];
        } else {
          perSubnet := perSubnet - {subnet};
        }
      }
      ghost var peers := perPeer;
      if ip in perPeer && perPeer[ip].connections > 0 {
        perPeer := perPeer[ip := perPeer[ip].(connections := perPeer[ip].connections - 1)];
      }
      ghost var e := Released(ip, now);
      SubnetsKeep(history, e, subnets);
      EventKeeps(config, history, e, now, lastPeerSweep, peers, perPeer);
      history := Then(history, e);
      CleanupPeer(ip, now);
    }
  }
}
