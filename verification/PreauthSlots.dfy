/**
 * Who owns an admission slot (src/sshd.rs, PreauthContext; src/metrics.rs, the gauge of unauthenticated
 * connections). An admitted connection's guard is wrapped in a context. Authentication and the drop of
 * the context both give it up, in whatever order they come, and the gauge follows the guards that are
 * wrapped.
 */
module PreauthSlots {
  import opened Common
  import opened Network
  import opened AdmissionHistory
  import opened AdmissionGuards

  class ServerMetrics {
    var unauthenticated: nat
    ghost var holders: set<PreauthContext>

    constructor ()
      ensures unauthenticated == 0 && holders == {}
    {
      unauthenticated := 0;
      holders := {};
    }

    method PreauthConnectionOpened()
      modifies this`unauthenticated
      ensures unauthenticated == old(unauthenticated) + 1
    {
      unauthenticated := unauthenticated + 1;
    }

    /** Saturates at zero. */
    method PreauthConnectionClosed()
      modifies this`unauthenticated
      ensures unauthenticated == if old(unauthenticated) > 0 then old(unauthenticated) - 1 else 0
    {
      unauthenticated := if unauthenticated > 0 then unauthenticated - 1 else 0;
    }
  }

  /** The guards that are wrapped in a context. */
  ghost function Wrapped(m: ServerMetrics): set<AdmissionGuard>
    reads m, m.holders`guard
  {
    set x | x in m.holders && x.guard != null :: x.guard as AdmissionGuard
  }

  /** The gauge counts the contexts that hold a guard; each holds one of the `live` guards for itself. */
  ghost predicate HoldersOk(live: set<AdmissionGuard>, m: ServerMetrics)
    reads m, m.holders`guard
  {
    && m.unauthenticated == |m.holders|
    && (forall x | x in m.holders :: x.metrics == m && x.guard != null && x.guard in live)
    && (forall x, y | x in m.holders && y in m.holders && x.guard == y.guard :: x == y)
  }

  /** The same while the context `gone` has lost its guard and the gauge does not know yet. */
  ghost predicate HoldersOkBut(live: set<AdmissionGuard>, m: ServerMetrics, gone: PreauthContext)
    reads m, m.holders`guard
  {
    && m.unauthenticated == |m.holders| && gone in m.holders
    && (forall x | x in m.holders && x != gone :: x.metrics == m && x.guard != null && x.guard in live)
    && (forall x, y | x in m.holders && y in m.holders && x != gone && y != gone && x.guard == y.guard :: x == y)
  }

  ghost predicate SlotsOk(c: AdmissionController, m: ServerMetrics)
    reads c, c.state, c.live, m, m.holders`guard
  {
    c.Valid() && HoldersOk(c.live, m)
  }

  class PreauthContext {
    const metrics: ServerMetrics
    var guard: AdmissionGuard?
    var authenticated: bool
    var successPending: bool

    constructor (guard: AdmissionGuard, metrics: ServerMetrics, ghost live: set<AdmissionGuard>)
      requires HoldersOk(live, metrics)
      requires guard in live && guard !in Wrapped(metrics)
      modifies metrics
      ensures this.metrics == metrics && this.guard == guard && !authenticated && successPending
      ensures metrics.holders == old(metrics.holders) + {this}
      ensures HoldersOk(live, metrics)
    {
      this.guard := guard;
      this.metrics := metrics;
      authenticated := false;
      successPending := true;
      new;
      metrics.PreauthConnectionOpened();
      metrics.holders := metrics.holders + {this};
    }

    /** A context that gave its guard up holds none. */
    ghost predicate Consistent(c: AdmissionController)
      reads this`guard, metrics`holders
    {
      (guard != null <==> this in metrics.holders) && (guard != null ==> guard.controller == c)
    }

    method TakeGuard(ghost c: AdmissionController) returns (g: AdmissionGuard)
      requires SlotsOk(c, metrics) && Consistent(c) && guard != null
      modifies this`guard
      ensures c.Valid() && g == old(guard) && g.Owned() && g in c.live && guard == null
      ensures HoldersOkBut(c.live - {g}, metrics, this)
    {
      g := guard;
      guard := null;
    }

    /** Gives the slot back; the gauge does not know yet. */
    method ReleaseSlot(c: AdmissionController, now: Instant)
      requires SlotsOk(c, metrics) && Consistent(c) && guard != null && c.state.clock <= now
      modifies this`guard, c, c.state, guard
      ensures c.Valid() && HoldersOkBut(c.live, metrics, this) && guard == null
      ensures c.live == old(c.live) - {old(guard)} && c.state.clock == now
      ensures c.state.history == Then(old(c.state.history), Released(old(guard).peerIp, now))
    {
      var g := TakeGuard(c);
      g.Release(now);
    }

    /** The gauge follows. It is never at zero then. */
    method CloseSlot(ghost c: AdmissionController)
      requires c.Valid() && HoldersOkBut(c.live, metrics, this)
      modifies metrics
      ensures SlotsOk(c, metrics) && metrics.holders == old(metrics.holders) - {this}
      ensures metrics.unauthenticated == old(metrics.unauthenticated) - 1
    {
      metrics.PreauthConnectionClosed();
      metrics.holders := metrics.holders - {this};
    }

    /**
     * Gives up the guard, if it is still held: the slot is released and the gauge falls, once. Consuming
     * the guard on success and dropping it both come down to its `Release`.
     */
    method GiveUp(c: AdmissionController, now: Instant)
      requires SlotsOk(c, metrics) && Consistent(c) && c.state.clock <= now
      modifies this`guard, metrics, c, c.state, guard
      ensures SlotsOk(c, metrics) && Consistent(c) && guard == null
      ensures metrics.holders == old(metrics.holders) - {this}
      ensures c.live == if old(guard) == null then old(c.live) else old(c.live) - {old(guard)}
      ensures metrics.unauthenticated == old(metrics.unauthenticated) - if old(guard) == null then 0 else 1
      ensures c.state.history
           == if old(guard) == null then old(c.state.history)
              else Then(old(c.state.history), Released(old(guard).peerIp, now))
      ensures c.state.clock == if old(guard) == null then old(c.state.clock) else now
    {
      if guard != null {
        ReleaseSlot(c, now);
        CloseSlot(c);
      }
    }

    method SetFlag(ghost c: AdmissionController)
      requires SlotsOk(c, metrics) && Consistent(c)
      modifies this`authenticated
      ensures SlotsOk(c, metrics) && Consistent(c) && authenticated
    {
      authenticated := true;
    }

    /** Tells the connection's supervisor, the first time only. */
    method Notify(ghost c: AdmissionController)
      requires SlotsOk(c, metrics) && Consistent(c)
      modifies this`successPending
      ensures SlotsOk(c, metrics) && Consistent(c) && !successPending
    {
      successPending := false;
    }

    /** Authentication succeeded. */
    method MarkAuthenticated(c: AdmissionController, now: Instant)
      requires SlotsOk(c, metrics) && Consistent(c) && c.state.clock <= now
      modifies this, metrics, c, c.state, guard
      ensures SlotsOk(c, metrics) && Consistent(c) && guard == null && authenticated && !successPending
      ensures metrics.holders == old(metrics.holders) - {this}
      ensures c.live == if old(guard) == null then old(c.live) else old(c.live) - {old(guard)}
      ensures metrics.unauthenticated == old(metrics.unauthenticated) - if old(guard) == null then 0 else 1
      ensures c.state.history
           == if old(guard) == null then old(c.state.history)
              else Then(old(c.state.history), Released(old(guard).peerIp, now))
      ensures c.state.clock == if old(guard) == null then old(c.state.clock) else now
    {
      SetFlag(c);
      GiveUp(c, now);
      Notify(c);
    }
  }

  /** Authentication and the drop that comes some time later release one slot and lower the gauge by one, as a drop alone does. */
  method AuthenticateThenDrop(x: PreauthContext, c: AdmissionController, now: Instant, later: Instant)
    requires SlotsOk(c, x.metrics) && x.Consistent(c) && x.guard != null && c.state.clock <= now <= later
    modifies x, x.metrics, c, c.state, x.guard
    ensures SlotsOk(c, x.metrics) && x.Consistent(c) && x.guard == null && x.authenticated
    ensures c.state.history == Then(old(c.state.history), Released(old(x.guard).peerIp, now)) && c.state.clock == now
    ensures c.live == old(c.live) - {old(x.guard)} && x.metrics.holders == old(x.metrics.holders) - {x}
    ensures x.metrics.unauthenticated == old(x.metrics.unauthenticated) - 1
  {
    x.MarkAuthenticated(c, now);
    x.GiveUp(c, later);
  }

  /** Two contexts give up their slots independently, in either order. */
  method BothGiveUp(x: PreauthContext, y: PreauthContext, c: AdmissionController, now: Instant, later: Instant)
    requires x != y && x.metrics == y.metrics && SlotsOk(c, x.metrics) && x.Consistent(c) && y.Consistent(c)
    requires x.guard != null && y.guard != null && c.state.clock <= now <= later
    modifies x, y, x.metrics, c, c.state, x.guard, y.guard
    ensures SlotsOk(c, x.metrics) && x.guard == null && y.guard == null
    ensures c.state.history == Then(Then(old(c.state.history), Released(old(x.guard).peerIp, now)), Released(old(y.guard).peerIp, later))
    ensures x.metrics.unauthenticated == old(x.metrics.unauthenticated) - 2
  {
    x.GiveUp(c, now);
    y.MarkAuthenticated(c, later);
  }

  lemma {:induction false} OneGuardPerHolder(holders: set<PreauthContext>)
    requires forall x | x in holders :: x.guard != null
    requires forall x, y | x in holders && y in holders && x.guard == y.guard :: x == y
    ensures |(set x | x in holders && x.guard != null :: x.guard as AdmissionGuard)| == |holders|
    decreases |holders|
  {
    if holders != {} {
      var x :| x in holders;
      var rest := holders - {x};
      OneGuardPerHolder(rest);
      var g := x.guard as AdmissionGuard;
      assert (set y | y in holders && y.guard != null :: y.guard as AdmissionGuard)
          == (set y | y in rest && y.guard != null :: y.guard as AdmissionGuard) + {g};
    }
  }

  /** The gauge is the admission count less the guards that are not wrapped yet. */
  lemma GaugeIsCountOfWrapped(c: AdmissionController, m: ServerMetrics)
    requires SlotsOk(c, m)
    ensures m.unauthenticated == c.state.unauthenticated - |c.live - Wrapped(m)|
  {
    OneGuardPerHolder(m.holders);
    assert |Wrapped(m)| == |m.holders|;
    assert c.live == Wrapped(m) + (c.live - Wrapped(m));
    CountersAreLiveGuards(c, V4(0, 0, 0, 0));
  }
}
