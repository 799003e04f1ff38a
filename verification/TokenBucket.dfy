/**
 * The lazily refilled token bucket of one peer entry (src/admission.rs, TokenBucket), and what it
 * decides.
 *
 * `Bucket` is the implementation: a token count and the time of the last refill. `Log` is what the
 * bucket has been asked so far. `Allows` is the reference definition, in terms of the log only:
 * counting from any earlier start point, the admissions never exceed the burst plus what the rate
 * has earned since. The two are proved to agree on every log.
 */
module TokenBucket {
  import opened Common

  datatype Limits = Limits(perMinute: nat, burst: nat)

  datatype Bucket = Bucket(tokens: real, lastRefill: Instant)

  function NewBucket(lim: Limits, now: Instant): Bucket {
    Bucket(lim.burst as real, now)
  }

  /** Tokens that `elapsed` nanoseconds are worth. */
  function Earned(lim: Limits, elapsed: int): real {
    (elapsed as real / 1000000000.0) * (lim.perMinute as real / 60.0)
  }

  function Refill(b: Bucket, lim: Limits, now: Instant): Bucket {
    var elapsed := if b.lastRefill <= now then now - b.lastRefill else 0;
    var filled := b.tokens + Earned(lim, elapsed);
    Bucket(if filled <= lim.burst as real then filled else lim.burst as real, now)
  }

  function TryConsume(b: Bucket, lim: Limits, now: Instant): (Bucket, bool) {
    var r := Refill(b, lim, now);
    if r.tokens >= 1.0 then (r.(tokens := r.tokens - 1.0), true) else (r, false)
  }

  /** Everything asked of one bucket since its creation, oldest innermost. */
  datatype Log =
    | Created(at: Instant)
    | Tried(before: Log, at: Instant, granted: bool)

  function Granted(log: Log): nat {
    match log
    case Created(_) => 0
    case Tried(before, _, granted) => Granted(before) + if granted then 1 else 0
  }

  /** `used` admissions since `start` fit the burst plus what the rate has earned since. */
  predicate Room(lim: Limits, start: Instant, used: nat, now: Instant) {
    used as real <= lim.burst as real + Earned(lim, now - start)
  }

  /**
   * Walks back over the start points of `log`, the newest try first and the creation last. `used`
   * counts the admissions after `log`; each try that was granted adds one for the start points from
   * there on.
   */
  predicate FitsEveryStart(lim: Limits, log: Log, now: Instant, used: nat) {
    match log
    case Created(at) => Room(lim, at, used, now)
    case Tried(before, at, granted) =>
      var u := used + if granted then 1 else 0;
      Room(lim, at, u, now) && FitsEveryStart(lim, before, now, u)
  }

  /** The reference decision: one more admission at `now` fits every start point, `now` included. */
  predicate Allows(lim: Limits, log: Log, now: Instant) {
    Room(lim, now, 1, now) && FitsEveryStart(lim, log, now, 1)
  }

  /** A log in time order, each of whose answers is the one the reference gives. */
  predicate Genuine(lim: Limits, log: Log) {
    match log
    case Created(_) => true
    case Tried(before, at, granted) =>
      Genuine(lim, before) && before.at <= at && (granted <==> Allows(lim, before, at))
  }

  /** The state in which a log leaves its bucket. */
  function BucketAfter(lim: Limits, log: Log): Bucket {
    match log
    case Created(at) => NewBucket(lim, at)
    case Tried(before, at, _) => TryConsume(BucketAfter(lim, before), lim, at).0
  }

  lemma EarnedAdds(lim: Limits, a: int, b: int)
    ensures Earned(lim, a) + Earned(lim, b) == Earned(lim, a + b)
  {
    var c := lim.perMinute as real / 60.0;
    var x, y := a as real / 1000000000.0, b as real / 1000000000.0;
    assert (a + b) as real / 1000000000.0 == x + y;
    assert (x + y) * c == x * c + y * c;
  }

  lemma EarnedMonotone(lim: Limits, a: int, b: int)
    requires a <= b
    ensures Earned(lim, a) <= Earned(lim, b)
    ensures Earned(lim, 0) == 0.0
  {
    var c := lim.perMinute as real / 60.0;
    var x, y := a as real / 1000000000.0, b as real / 1000000000.0;
    assert x <= y && c >= 0.0;
    assert (y - x) * c >= 0.0;
  }

  /** The smallest credit over the start points of `log`, after `used` further admissions. */
  function Tightest(lim: Limits, log: Log, now: Instant, used: nat): real {
    match log
    case Created(at) => lim.burst as real + Earned(lim, now - at) - used as real
    case Tried(before, at, granted) =>
      var u := used + if granted then 1 else 0;
      var here := lim.burst as real + Earned(lim, now - at) - u as real;
      var rest := Tightest(lim, before, now, u);
      if here <= rest then here else rest
  }

  lemma {:induction false} TightestDecides(lim: Limits, log: Log, now: Instant, used: nat)
    ensures FitsEveryStart(lim, log, now, used) <==> Tightest(lim, log, now, used) >= 0.0
  {
    if log.Tried? {
      TightestDecides(lim, log.before, now, used + if log.granted then 1 else 0);
    }
  }

  /** Every credit grows with the time passed and shrinks with the admissions made. */
  lemma {:induction false} TightestMoves(lim: Limits, log: Log, t: Instant, now: Instant, used: nat)
    ensures Tightest(lim, log, now, used) == Tightest(lim, log, t, 0) + Earned(lim, now - t) - used as real
  {
    EarnedAdds(lim, t - log.at, now - t);
    if log.Tried? {
      var u := if log.granted then 1 else 0;
      TightestMoves(lim, log.before, t, now, used + u);
      TightestMoves(lim, log.before, t, t, u);
      EarnedMonotone(lim, 0, 0);
    }
  }

  /** After a refill the tokens are the tightest credit over all start points, the present one included. */
  lemma {:induction false} TokensAreTightest(lim: Limits, log: Log, now: Instant)
    requires Genuine(lim, log)
    requires log.at <= now
    ensures Refill(BucketAfter(lim, log), lim, now).tokens
         == var t := Tightest(lim, log, now, 0); if t <= lim.burst as real then t else lim.burst as real
    ensures BucketAfter(lim, log).lastRefill == log.at
    decreases log, 0
  {
    EarnedMonotone(lim, 0, now - log.at);
    if log.Tried? {
      TokensAreTightest(lim, log.before, log.at);
      TightestMoves(lim, log.before, log.at, now, if log.granted then 1 else 0);
      BucketIsExact(lim, log.before, log.at);
    }
  }

  /** The bucket answers exactly as the reference does, for every genuine log and every later time. */
  lemma {:induction false} BucketIsExact(lim: Limits, log: Log, now: Instant)
    requires Genuine(lim, log)
    requires log.at <= now
    ensures TryConsume(BucketAfter(lim, log), lim, now).1 <==> Allows(lim, log, now)
    decreases log, 1
  {
    TokensAreTightest(lim, log, now);
    TightestDecides(lim, log, now, 1);
    TightestMoves(lim, log, now, now, 1);
    EarnedMonotone(lim, 0, 0);
  }

  /** `earlier` is `log` or one of the logs it grew from. */
  predicate GrewFrom(log: Log, earlier: Log) {
    log == earlier || (log.Tried? && GrewFrom(log.before, earlier))
  }

  /** From any start point of a genuine log up to its end, at most burst plus earned were admitted. */
  lemma {:induction false} EveryWindowObeysTheBudget(lim: Limits, log: Log, start: Log)
    requires Genuine(lim, log)
    requires GrewFrom(log, start)
    ensures start.at <= log.at
    ensures (Granted(log) - if start.Tried? then Granted(start.before) else 0) as real
         <= lim.burst as real + Earned(lim, log.at - start.at)
  {
    EarnedMonotone(lim, 0, 0);
    if log != start {
      EveryWindowObeysTheBudget(lim, log.before, start);
      if log.granted {
        FitsGivesRoom(lim, log.before, start, log.at, 1);
      } else {
        EarnedMonotone(lim, log.before.at - start.at, log.at - start.at);
      }
    }
  }

  lemma {:induction false} FitsGivesRoom(lim: Limits, log: Log, start: Log, now: Instant, used: nat)
    requires FitsEveryStart(lim, log, now, used)
    requires GrewFrom(log, start)
    ensures (used + Granted(log) - if start.Tried? then Granted(start.before) else 0) as real
         <= lim.burst as real + Earned(lim, now - start.at)
  {
    if log != start {
      FitsGivesRoom(lim, log.before, start, now, used + if log.granted then 1 else 0);
    }
  }

  /** The tries that were granted, in order. */
  function OnlyGranted(log: Log): Log {
    match log
    case Created(_) => log
    case Tried(before, at, granted) =>
      if granted then Tried(OnlyGranted(before), at, true) else OnlyGranted(before)
  }

  /** Refilling twice is refilling once. */
  lemma RefillTwice(b: Bucket, lim: Limits, t: Instant, now: Instant)
    requires b.lastRefill <= t <= now
    ensures Refill(Refill(b, lim, t), lim, now) == Refill(b, lim, now)
  {
    EarnedAdds(lim, t - b.lastRefill, now - t);
    EarnedMonotone(lim, 0, now - t);
  }

  /** Deleting the rate-limited attempts changes no later decision. */
  lemma {:induction false} RejectedTriesLeaveNoTrace(lim: Limits, log: Log, now: Instant)
    requires Genuine(lim, log)
    requires log.at <= now
    ensures Genuine(lim, OnlyGranted(log)) && OnlyGranted(log).at <= log.at
    ensures Refill(BucketAfter(lim, OnlyGranted(log)), lim, now) == Refill(BucketAfter(lim, log), lim, now)
    ensures Allows(lim, OnlyGranted(log), now) <==> Allows(lim, log, now)
  {
    if log.Tried? {
      RejectedTriesLeaveNoTrace(lim, log.before, log.at);
      BucketIsExact(lim, log.before, log.at);
      TokensAreTightest(lim, OnlyGranted(log.before), log.at);
      if !log.granted {
        RefillTwice(BucketAfter(lim, OnlyGranted(log.before)), lim, log.at, now);
      }
    }
    BucketIsExact(lim, log, now);
    BucketIsExact(lim, OnlyGranted(log), now);
  }

  // ---------------------------------------------------------------- the same in whole numbers

  /** Admissions before `start`, or before its try if it is one. */
  function GrantedBefore(start: Log): nat {
    if start.Tried? then Granted(start.before) else 0
  }

  /** `used` admissions in `elapsed` nanoseconds are within the burst and `perMinute` a minute. */
  predicate WithinRate(lim: Limits, used: int, elapsed: int) {
    (used - lim.burst) * 60_000_000_000 <= lim.perMinute * elapsed
  }

  lemma EarnedScales(lim: Limits, elapsed: int)
    ensures Earned(lim, elapsed) * 60000000000.0 == (lim.perMinute * elapsed) as real
  {
    var e, p := elapsed as real, lim.perMinute as real;
    assert (lim.perMinute * elapsed) as real == p * e;
    calc {
      (e / 1000000000.0) * (p / 60.0) * 60000000000.0;
      ((e / 1000000000.0) * 1000000000.0) * ((p / 60.0) * 60.0);
      e * p;
    }
  }

  lemma RoomIsWithinRate(lim: Limits, start: Instant, used: nat, now: Instant)
    ensures Room(lim, start, used, now) <==> WithinRate(lim, used, now - start)
  {
    EarnedScales(lim, now - start);
    var d, e := used - lim.burst, Earned(lim, now - start);
    assert used as real - lim.burst as real == d as real;
    assert d as real <= e <==> d as real * 60000000000.0 <= e * 60000000000.0;
    assert (d * 60_000_000_000) as real == d as real * 60000000000.0;
  }

  lemma {:induction false} EveryStartFits(lim: Limits, log: Log, now: Instant, used: nat)
    ensures FitsEveryStart(lim, log, now, used) <==>
              forall start | GrewFrom(log, start) ::
                WithinRate(lim, used + Granted(log) - GrantedBefore(start), now - start.at)
  {
    var u := used + if log.Tried? && log.granted then 1 else 0;
    RoomIsWithinRate(lim, log.at, u, now);
    assert GrewFrom(log, log) && used + Granted(log) - GrantedBefore(log) == u;
    if log.Tried? {
      EveryStartFits(lim, log.before, now, u);
      assert forall start | GrewFrom(log.before, start) ::
          GrewFrom(log, start) && u + Granted(log.before) == used + Granted(log);
    }
  }

  /** From every start point on, the admissions so far and one more stay within burst and rate. */
  ghost predicate KeepsTheRate(lim: Limits, log: Log, now: Instant) {
    && lim.burst >= 1
    && forall start | GrewFrom(log, start) ::
         (1 + Granted(log) - GrantedBefore(start) - lim.burst) * 60_000_000_000 <= lim.perMinute * (now - start.at)
  }

  lemma AllowsKeepsTheRate(lim: Limits, log: Log, now: Instant)
    ensures Allows(lim, log, now) <==> KeepsTheRate(lim, log, now)
  {
    RoomIsWithinRate(lim, now, 1, now);
    EveryStartFits(lim, log, now, 1);
    assert forall start | GrewFrom(log, start) ::
        WithinRate(lim, 1 + Granted(log) - GrantedBefore(start), now - start.at) <==>
        (1 + Granted(log) - GrantedBefore(start) - lim.burst) * 60_000_000_000 <= lim.perMinute * (now - start.at);
  }

  /** The bucket grants a token exactly if that keeps the rate. */
  lemma BucketKeepsTheRate(lim: Limits, log: Log, now: Instant)
    requires Genuine(lim, log) && log.at <= now
    ensures TryConsume(BucketAfter(lim, log), lim, now).1 <==> KeepsTheRate(lim, log, now)
  {
    BucketIsExact(lim, log, now);
    AllowsKeepsTheRate(lim, log, now);
  }

  /** And between any start point and the end of a log, no more were granted than that. */
  lemma EveryWindowKeepsTheRate(lim: Limits, log: Log, start: Log)
    requires Genuine(lim, log) && GrewFrom(log, start)
    ensures start.at <= log.at
    ensures (Granted(log) - GrantedBefore(start) - lim.burst) * 60_000_000_000 <= lim.perMinute * (log.at - start.at)
  {
    EveryWindowObeysTheBudget(lim, log, start);
    GrantedGrows(log, start);
    RoomIsWithinRate(lim, start.at, Granted(log) - GrantedBefore(start), log.at);
  }

  lemma {:induction false} GrantedGrows(log: Log, start: Log)
    requires GrewFrom(log, start)
    ensures Granted(log) >= Granted(start) >= GrantedBefore(start)
  {
    if log != start {
      GrantedGrows(log.before, start);
    }
  }
}
