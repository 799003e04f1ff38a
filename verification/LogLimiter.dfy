/**
 * The limiter for repeated log lines (src/log_limiter.rs): a line is emitted once per window and key,
 * and says how many were suppressed since the one before.
 *
 * Decisions are explained by the history of checks and of dropped entries. Nothing is assumed about the
 * clock until it is needed: two threads may reach the lock in the other order than they read the time.
 */
module LogLimiter {
  import opened Common
  import opened Network

  datatype LogKey = LogKey(peer: Option<IpAddr>, category: string)
  datatype LogEntry = LogEntry(lastEmittedAt: Instant, suppressed: nat)
  datatype LogDecision = Emit(suppressed: nat) | Suppress
  type Entries = map<LogKey, LogEntry>

  const USIZE_MAX: nat := 0xFFFF_FFFF_FFFF_FFFF
  const DURATION_MAX: nat := 0xFFFF_FFFF_FFFF_FFFF * SECOND + 999_999_999

  /** Durations do not go below zero. */
  function Elapsed(now: Instant, from: Instant): nat {
    if now <= from then 0 else now - from
  }

  function Retention(window: nat): nat {
    Min(2 * window, DURATION_MAX)
  }

  // ---------------------------------------------------------------- what happened

  /** `Dropped` is one cleanup that threw entries away, because of their age or because there were too many. */
  datatype History =
    | Start
    | Checked(before: History, key: LogKey, at: Instant, decision: LogDecision)
    | Dropped(before: History, keys: set<LogKey>, at: Instant, crowded: bool)

  /** When the key's line was last emitted. */
  function LastEmit(h: History, k: LogKey): Option<Instant> {
    match h
    case Start => None
    case Checked(before, key, at, decision) => if key == k && decision.Emit? then Some(at) else LastEmit(before, k)
    case Dropped(before, _, _, _) => LastEmit(before, k)
  }

  /** How many lines of the key were suppressed since. */
  function Since(h: History, k: LogKey): nat {
    match h
    case Start => 0
    case Checked(before, key, _, decision) =>
      if key != k then Since(before, k) else if decision.Emit? then 0 else Since(before, k) + 1
    case Dropped(before, _, _, _) => Since(before, k)
  }

  /** Whether the key's entry was dropped since. */
  predicate Gone(h: History, k: LogKey) {
    match h
    case Start => false
    case Checked(before, key, _, decision) => !(key == k && decision.Emit?) && Gone(before, k)
    case Dropped(before, keys, _, _) => k in keys || Gone(before, k)
  }

  /** Whether it was dropped since to make room. */
  predicate CrowdedOut(h: History, k: LogKey) {
    match h
    case Start => false
    case Checked(before, key, _, decision) => !(key == k && decision.Emit?) && CrowdedOut(before, k)
    case Dropped(before, keys, _, crowded) => (crowded && k in keys) || CrowdedOut(before, k)
  }

  /** The limiter still knows of the key's last emission. */
  predicate Known(h: History, k: LogKey) {
    LastEmit(h, k).Some? && !Gone(h, k)
  }

  /** A line is suppressed exactly when its last emission is known and within the window. */
  function Decide(h: History, k: LogKey, now: Instant, window: nat): LogDecision {
    if Known(h, k) && Elapsed(now, LastEmit(h, k).value) < window then Suppress
    else Emit(if Known(h, k) then Min(Since(h, k), USIZE_MAX) else 0)
  }

  /** Every check was decided so, and entries were only dropped for age once they were old. */
  ghost predicate Faithful(h: History, window: nat) {
    match h
    case Start => true
    case Checked(before, key, at, decision) => Faithful(before, window) && decision == Decide(before, key, at, window)
    case Dropped(before, keys, at, crowded) =>
      && Faithful(before, window)
      && forall k | k in keys :: Droppable(before, k, at, crowded, window)
  }

  predicate Droppable(h: History, k: LogKey, at: Instant, crowded: bool, window: nat) {
    Known(h, k) && (crowded || Elapsed(at, LastEmit(h, k).value) > Retention(window))
  }

  /** The clock never ran backwards, and has not passed `t`. */
  predicate EndsBy(h: History, t: Instant) {
    match h
    case Start => true
    case Checked(before, _, at, _) => at <= t && EndsBy(before, at)
    case Dropped(before, _, at, _) => at <= t && EndsBy(before, at)
  }

  // ---------------------------------------------------------------- what it amounts to

  /** How often the key's line was suppressed in all. */
  function Suppressions(h: History, k: LogKey): nat {
    match h
    case Start => 0
    case Checked(before, key, _, decision) => Suppressions(before, k) + if key == k && decision.Suppress? then 1 else 0
    case Dropped(before, _, _, _) => Suppressions(before, k)
  }

  /** The sum of the numbers that its emitted lines showed. */
  function Reported(h: History, k: LogKey): nat {
    match h
    case Start => 0
    case Checked(before, key, _, decision) => Reported(before, k) + if key == k && decision.Emit? then decision.suppressed else 0
    case Dropped(before, _, _, _) => Reported(before, k)
  }

  /** The sum of the numbers that went with dropped entries. */
  function Lost(h: History, k: LogKey): nat {
    match h
    case Start => 0
    case Checked(before, _, _, _) => Lost(before, k)
    case Dropped(before, keys, _, _) => Lost(before, k) + if k in keys then Since(before, k) else 0
  }

  lemma {:induction false} SinceIsPart(h: History, k: LogKey)
    ensures Since(h, k) <= Suppressions(h, k)
  {
    if !h.Start? { SinceIsPart(h.before, k); }
  }

  lemma {:induction false} GoneIsSilent(h: History, k: LogKey, window: nat)
    requires Faithful(h, window)
    ensures LastEmit(h, k).None? ==> Since(h, k) == 0 && !Gone(h, k)
  {
    if !h.Start? {
      GoneIsSilent(h.before, k, window);
      if h.Dropped? && k in h.keys {
        assert Droppable(h.before, k, h.at, h.crowded, window);
      }
    }
  }

  /** Every suppressed line is reported once, still counted, or was dropped with its entry. */
  lemma {:induction false} EverySuppressionIsAccountedFor(h: History, k: LogKey, window: nat)
    requires Faithful(h, window) && Suppressions(h, k) <= USIZE_MAX
    ensures Suppressions(h, k) == Reported(h, k) + Lost(h, k) + if Gone(h, k) then 0 else Since(h, k)
    // nothing is suppressed for a key whose entry is gone
    ensures Gone(h, k) ==> LastEmit(h, k).Some?
  {
    if !h.Start? {
      EverySuppressionIsAccountedFor(h.before, k, window);
      SinceIsPart(h.before, k);
      GoneIsSilent(h.before, k, window);
      if h.Dropped? && k in h.keys {
        assert Droppable(h.before, k, h.at, h.crowded, window);
      }
    }
  }

  /** An entry that was dropped for its age would have let the line through anyway. */
  lemma {:induction false} OldEntriesAreSpent(h: History, k: LogKey, now: Instant, window: nat)
    requires window <= DURATION_MAX
    requires Faithful(h, window) && EndsBy(h, now) && Gone(h, k) && !CrowdedOut(h, k)
    ensures LastEmit(h, k).Some? && now - LastEmit(h, k).value >= window
  {
    if h.Dropped? && k in h.keys {
      assert Droppable(h.before, k, h.at, h.crowded, window);
    } else {
      OldEntriesAreSpent(h.before, k, h.at, window);
    }
  }

  lemma {:induction false} CrowdedIsGone(h: History, k: LogKey)
    ensures CrowdedOut(h, k) ==> Gone(h, k)
  {
    if !h.Start? { CrowdedIsGone(h.before, k); }
  }

  lemma {:induction false} LastEmitIsPast(h: History, k: LogKey, now: Instant)
    requires EndsBy(h, now)
    ensures LastEmit(h, k).Some? ==> LastEmit(h, k).value <= now
  {
    if !h.Start? {
      LastEmitIsPast(h.before, k, h.at);
    }
  }

  /** So a line is suppressed exactly when it was emitted within the window and its entry was not crowded out. */
  lemma SuppressedWithinTheWindow(h: History, k: LogKey, now: Instant, window: nat)
    requires window <= DURATION_MAX
    requires Faithful(h, window) && EndsBy(h, now)
    ensures Decide(h, k, now, window).Suppress? <==>
              LastEmit(h, k).Some? && now - LastEmit(h, k).value < window && !CrowdedOut(h, k)
  {
    CrowdedIsGone(h, k);
    LastEmitIsPast(h, k, now);
    if Gone(h, k) && !CrowdedOut(h, k) {
      OldEntriesAreSpent(h, k, now, window);
    }
  }

  /** Whatever the clock does, a known line is suppressed exactly within the window, and one from the future too. */
  lemma SuppressedByElapsedTime(h: History, k: LogKey, now: Instant, window: nat)
    ensures Decide(h, k, now, window).Suppress? <==> Known(h, k) && window > 0 && now - LastEmit(h, k).value < window
  {
  }

  /** How often the key's line was emitted at `from` or later. */
  function EmitsFrom(h: History, k: LogKey, from: Instant): nat {
    match h
    case Start => 0
    case Checked(before, key, at, decision) =>
      EmitsFrom(before, k, from) + if key == k && decision.Emit? && at >= from then 1 else 0
    case Dropped(before, _, _, _) => EmitsFrom(before, k, from)
  }

  /** The last emission is the latest of all. */
  lemma {:induction false} LastEmitIsLatest(h: History, k: LogKey, from: Instant, now: Instant)
    requires EndsBy(h, now)
    ensures EmitsFrom(h, k, from) > 0 <==> LastEmit(h, k).Some? && LastEmit(h, k).value >= from
  {
    if !h.Start? {
      LastEmitIsLatest(h.before, k, from, h.at);
      LastEmitIsPast(h.before, k, h.at);
    }
  }

  predicate NeverCrowdedOut(h: History, k: LogKey) {
    match h
    case Start => true
    case Checked(before, _, _, _) => NeverCrowdedOut(before, k)
    case Dropped(before, keys, _, crowded) => !(crowded && k in keys) && NeverCrowdedOut(before, k)
  }

  lemma OneWindowMore(n: nat, window: nat)
    ensures n * window == (n - 1) * window + window
    ensures n > 0 ==> (n - 1) * window >= 0
  {
  }

  /** The rate that the limiter is for: from any moment on, one line of a key per window. */
  lemma {:induction false} OneLinePerWindow(h: History, k: LogKey, from: Instant, now: Instant, window: nat)
    requires window <= DURATION_MAX
    requires Faithful(h, window) && EndsBy(h, now) && NeverCrowdedOut(h, k)
    ensures !CrowdedOut(h, k)
    ensures LastEmit(h, k).Some? ==> LastEmit(h, k).value <= now
    ensures EmitsFrom(h, k, from) > 0 ==>
              LastEmit(h, k).Some? && (EmitsFrom(h, k, from) - 1) * window <= LastEmit(h, k).value - from
  {
    if !h.Start? {
      OneLinePerWindow(h.before, k, from, h.at, window);
      var n := EmitsFrom(h.before, k, from);
      if h.Checked? && h.key == k && h.decision.Emit? && n > 0 {
        SuppressedWithinTheWindow(h.before, k, h.at, window);
        OneWindowMore(n, window);
      }
    }
  }

  // ---------------------------------------------------------------- the limiter

  ghost predicate Explains(h: History, entries: Entries) {
    forall k :: EntryOk(h, entries, k)
  }

  ghost predicate EntryOk(h: History, entries: Entries, k: LogKey) {
    && (k in entries <==> Known(h, k))
    && (k in entries ==> entries[k] == LogEntry(LastEmit(h, k).value, Min(Since(h, k), USIZE_MAX)))
  }

  lemma DroppingKeeps(h: History, entries: Entries, kept: Entries, gone: set<LogKey>, at: Instant, crowded: bool, window: nat)
    requires Explains(h, entries) && Faithful(h, window)
    requires kept.Keys <= entries.Keys && forall k | k in kept :: kept[k] == entries[k]
    requires forall k | k in entries && k !in kept :: crowded || Elapsed(at, entries[k].lastEmittedAt) > Retention(window)
    requires gone == entries.Keys - kept.Keys
    ensures Explains(Dropped(h, gone, at, crowded), kept)
    ensures Faithful(Dropped(h, gone, at, crowded), window)
  {
    var after := Dropped(h, gone, at, crowded);
    forall k ensures EntryOk(after, kept, k) {
      assert EntryOk(h, entries, k);
    }
    forall k | k in gone ensures Droppable(h, k, at, crowded, window) {
      assert EntryOk(h, entries, k);
    }
  }

  lemma CheckKeeps(h: History, entries: Entries, key: LogKey, now: Instant, window: nat, entry: LogEntry)
    requires Explains(h, entries)
    requires entry == if Decide(h, key, now, window).Emit? then LogEntry(now, 0)
                      else LogEntry(LastEmit(h, key).value, Min(Since(h, key) + 1, USIZE_MAX))
    ensures Explains(Checked(h, key, now, Decide(h, key, now, window)), entries[key := entry])
  {
    var after := Checked(h, key, now, Decide(h, key, now, window));
    var updated := entries[key := entry];
    forall k ensures EntryOk(after, updated, k) {
      assert EntryOk(h, entries, k);
    }
  }

  /** Looks the key up, and counts or shows its suppressed lines. */
  method Answer(ghost h: History, entries: Entries, key: LogKey, now: Instant, window: nat)
    returns (decision: LogDecision, updated: Entries)
    requires Explains(h, entries)
    ensures decision == Decide(h, key, now, window)
    ensures Explains(Checked(h, key, now, decision), updated)
    ensures key in updated && updated == entries[key := updated[key]]
  {
    assert EntryOk(h, entries, key);
    var entry := LogEntry(now, 0);
    decision := Emit(0);
    if key in entries {
      if Elapsed(now, entries[key].lastEmittedAt) >= window {
        decision := Emit(entries[key].suppressed);
      } else {
        var suppressed := entries[key].suppressed;
        entry := LogEntry(entries[key].lastEmittedAt, if suppressed < USIZE_MAX then suppressed + 1 else USIZE_MAX);
        decision := Suppress;
      }
    }
    CheckKeeps(h, entries, key, now, window, entry);
    updated := entries[key := entry];
  }

  ghost function Old(entries: Entries, now: Instant, retention: nat): set<LogKey> {
    set k | k in entries && Elapsed(now, entries[k].lastEmittedAt) > retention
  }

  /** Entries go for their age after two windows. */
  lemma OldIsTwoWindows(entries: Entries, now: Instant, window: nat, k: LogKey)
    requires 2 * window <= DURATION_MAX
    ensures k in Old(entries, now, Retention(window)) <==> k in entries && now - entries[k].lastEmittedAt > 2 * window
  {
  }

  method Retain(entries: Entries, now: Instant, retention: nat) returns (kept: Entries)
    ensures kept == entries - Old(entries, now, retention)
  {
    kept := map[];
    var todo := entries.Keys;
    while todo != {}
      invariant todo <= entries.Keys
      invariant forall k :: k in kept <==> k in entries && k !in todo && Elapsed(now, entries[k].lastEmittedAt) <= retention
      invariant forall k | k in kept :: kept[k] == entries[k]
      decreases |todo|
    {
      var k :| k in todo;
      if Elapsed(now, entries[k].lastEmittedAt) <= retention {
        kept := kept[k := entries[k]];
      }
      todo := todo - {k};
    }
  }

  ghost predicate OldestFirst(keys: seq<LogKey>, entries: Entries) {
    && (forall i | 0 <= i < |keys| :: keys[i] in entries)
    && (forall i, j | 0 <= i < j < |keys| :: entries[keys[i]].lastEmittedAt <= entries[keys[j]].lastEmittedAt)
  }

  ghost predicate Distinct(keys: seq<LogKey>) {
    forall i, j | 0 <= i < j < |keys| :: keys[i] != keys[j]
  }

  method Oldest(todo: set<LogKey>, entries: Entries) returns (k: LogKey)
    requires todo != {} && todo <= entries.Keys
    ensures k in todo && forall x | x in todo :: entries[k].lastEmittedAt <= entries[x].lastEmittedAt
  {
    k :| k in todo;
    var rest := todo - {k};
    while rest != {}
      invariant k in todo && rest <= todo
      invariant forall x | x in todo && x !in rest :: entries[k].lastEmittedAt <= entries[x].lastEmittedAt
      decreases |rest|
    {
      var x :| x in rest;
      if entries[x].lastEmittedAt < entries[k].lastEmittedAt {
        k := x;
      }
      rest := rest - {x};
    }
  }

  /** All keys, those emitted longest ago first; keys emitted at one moment come in any order. */
  method SortedByEmission(entries: Entries) returns (keys: seq<LogKey>)
    ensures OldestFirst(keys, entries) && Distinct(keys)
    ensures forall k :: k in keys <==> k in entries
    ensures |keys| == |entries|
  {
    keys := [];
    var todo := entries.Keys;
    while todo != {}
      invariant todo <= entries.Keys && |keys| + |todo| == |entries|
      invariant OldestFirst(keys, entries) && Distinct(keys)
      invariant forall k :: k in keys <==> k in entries && k !in todo
      invariant forall i, k | 0 <= i < |keys| && k in todo :: entries[keys[i]].lastEmittedAt <= entries[k].lastEmittedAt
      decreases |todo|
    {
      var k := Oldest(todo, entries);
      keys := keys + [k];
      todo := todo - {k};
    }
  }

  /** So many entries are left as are allowed, and none that went was younger than one that stayed. */
  ghost predicate Crowded(entries: Entries, kept: Entries, maxEntries: nat) {
    && |kept| == maxEntries
    && kept.Keys <= entries.Keys && (forall k | k in kept :: kept[k] == entries[k])
    && forall k, gone | k in kept && gone in entries && gone !in kept ::
         entries[gone].lastEmittedAt <= entries[k].lastEmittedAt
  }

  /** Removes the entries that were emitted longest ago, so that `maxEntries` remain. */
  method Crowd(entries: Entries, maxEntries: nat) returns (kept: Entries)
    requires |entries| > maxEntries
    ensures Crowded(entries, kept, maxEntries)
  {
    var keys := SortedByEmission(entries);
    var toRemove := |entries| - maxEntries;
    kept := entries;
    var i := 0;
    while i < toRemove
      invariant i <= toRemove && |kept| == |entries| - i
      invariant kept.Keys <= entries.Keys && forall k | k in kept :: kept[k] == entries[k]
      invariant forall j | 0 <= j < |keys| :: keys[j] in kept <==> i <= j
    {
      kept := kept - {keys[i]};
      i := i + 1;
    }
    forall k, gone | k in kept && gone in entries && gone !in kept
      ensures entries[gone].lastEmittedAt <= entries[k].lastEmittedAt
    {
      assert k in keys && gone in keys;
    }
  }

  /** What one cleanup does: the old entries go, and if more than allowed are left, the oldest of those. */
  ghost predicate CleanedUp(before: History, after: History, now: Instant, was: Entries, left: Entries, maxEntries: nat, window: nat) {
    var old' := Old(was, now, Retention(window));
    var aged := Dropped(before, old', now, false);
    if |was - old'| <= maxEntries then after == aged && left == was - old'
    else after == Dropped(aged, (was - old').Keys - left.Keys, now, true) && Crowded(was - old', left, maxEntries)
  }

  /** Some entries went, none of them younger than one that stays, and those that stay are as they were. */
  ghost predicate OldestGo(was: Entries, left: Entries) {
    && left.Keys <= was.Keys && (forall k | k in left :: left[k] == was[k])
    && forall k, gone | k in left && gone in was && gone !in left :: was[gone].lastEmittedAt <= was[k].lastEmittedAt
  }

  lemma CleanupTakesTheOldest(before: History, after: History, now: Instant, was: Entries, left: Entries, maxEntries: nat, window: nat)
    requires CleanedUp(before, after, now, was, left, maxEntries, window)
    ensures OldestGo(was, left)
  {
    var old' := Old(was, now, Retention(window));
    var young := was - old';
    forall k, gone | k in left && gone in was && gone !in left ensures was[gone].lastEmittedAt <= was[k].lastEmittedAt {
      assert k in young && (gone in young || gone in old');
    }
  }

  class LogLimiterState {
    const window: nat
    const maxEntries: nat
    var entries: Entries
    var lastCleanup: Instant
    ghost var history: History

    ghost predicate Valid()
      reads this
    {
      && window <= DURATION_MAX
      && Explains(history, entries) && Faithful(history, window)
      && |entries| <= maxEntries + 1
    }

    constructor (window: nat, maxEntries: nat, now: Instant)
      requires window <= DURATION_MAX
      ensures Valid() && this.window == window && this.maxEntries == maxEntries
      ensures history == Start && lastCleanup == now
    {
      this.window := window;
      this.maxEntries := maxEntries;
      entries := map[];
      lastCleanup := now;
      history := Start;
    }

    ghost predicate CleanupIsDue(now: Instant)
      reads this
    {
      |entries| > maxEntries || Elapsed(now, lastCleanup) >= window
    }

    /** Past a window or past the limit, drops what is old, and if that is not enough, what is oldest. */
    method MaybeCleanup(now: Instant)
      requires Valid()
      modifies this
      ensures Valid() && |entries| <= maxEntries
      ensures if old(CleanupIsDue(now))
              then lastCleanup == now && CleanedUp(old(history), history, now, old(entries), entries, maxEntries, window)
              else lastCleanup == old(lastCleanup) && history == old(history) && entries == old(entries)
      // nothing goes before a window has passed unless there are too many, and then nothing younger than what stays
      ensures |old(entries)| <= maxEntries && window > 0 && now - old(lastCleanup) < window ==> entries == old(entries)
      ensures |old(entries)| > maxEntries || now - old(lastCleanup) >= window ==> lastCleanup == now
      ensures OldestGo(old(entries), entries)
    {
      if |entries| <= maxEntries && Elapsed(now, lastCleanup) < window {
        return;
      }
      CleanUp(now);
      CleanupTakesTheOldest(old(history), history, now, old(entries), entries, maxEntries, window);
    }

    method CleanUp(now: Instant)
      requires Valid()
      modifies this
      ensures Valid() && |entries| <= maxEntries && lastCleanup == now
      ensures CleanedUp(old(history), history, now, old(entries), entries, maxEntries, window)
    {
      ghost var gone := Old(entries, now, Retention(window));
      var retained := Retain(entries, now, Retention(window));
      DroppingKeeps(history, entries, retained, gone, now, false, window);
      history := Dropped(history, gone, now, false);
      entries := retained;
      lastCleanup := now;
      if |entries| > maxEntries {
        CrowdOut(now);
      }
    }

    /** Makes room. */
    method CrowdOut(now: Instant)
      requires window <= DURATION_MAX && Explains(history, entries) && Faithful(history, window)
      requires |entries| > maxEntries
      modifies `entries, `history
      ensures Valid() && Crowded(old(entries), entries, maxEntries)
      ensures history == Dropped(old(history), old(entries).Keys - entries.Keys, now, true)
    {
      var kept := Crowd(entries, maxEntries);
      DroppingKeeps(history, entries, kept, entries.Keys - kept.Keys, now, true, window);
      history := Dropped(history, entries.Keys - kept.Keys, now, true);
      entries := kept;
    }

    /** The decision is the one that the history calls for. */
    method Check(key: LogKey, now: Instant) returns (decision: LogDecision, ghost left: Entries)
      requires Valid()
      modifies this
      ensures Valid()
      ensures history.Checked? && history == Checked(history.before, key, now, decision)
      ensures decision == Decide(history.before, key, now, window)
      // before it decides it cleans up if that is due; it then touches no other entry
      ensures if old(CleanupIsDue(now)) then CleanedUp(old(history), history.before, now, old(entries), left, maxEntries, window)
              else history.before == old(history) && left == old(entries)
      ensures key in entries && entries == left[key := entries[key]]
    {
      MaybeCleanup(now);
      left := entries;
      decision, entries := Answer(history, entries, key, now, window);
      history := Checked(history, key, now, decision);
    }
  }
}
