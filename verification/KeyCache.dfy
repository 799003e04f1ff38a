/**
 * The cache of authorized keys (src/authorized_keys.rs): it is reloaded when the file's fingerprint
 * changes, and keeps the last content that loaded when a reload fails or the file is missing.
 *
 * A file's content is the sequence of entries that the parsing library yields for it. The file system
 * is a parameter of every check: what `stat` reports, and what opening and reading the file gives a
 * moment later, which may be something else.
 */
module KeyCache {
  import opened Common

  type KeyBytes = seq<u8>
  const U64_MAX: nat := 0xFFFF_FFFF_FFFF_FFFF

  datatype Entry = Malformed | WithOptions | Plain(key: KeyBytes) | Unserializable

  datatype Fingerprint = Missing | Present(modified: Option<int>, len: nat)

  /** A file as found on disk. `readable` covers permissions, I/O errors and text encoding. */
  datatype File = NoFile | File(fingerprint: Fingerprint, entries: seq<Entry>, readable: bool)

  /** What `stat` reports; it may fail for other reasons than a missing file. */
  datatype Stat = StatFailed | StatOk(fingerprint: Fingerprint)

  datatype Cache = Cache(accepted: set<KeyBytes>, ignored: nat)

  // ---------------------------------------------------------------- what a content means

  function PlainKeys(entries: seq<Entry>): set<KeyBytes> {
    set i | 0 <= i < |entries| && entries[i].Plain? :: entries[i].key
  }

  function OptionEntries(entries: seq<Entry>): nat {
    if entries == [] then 0
    else OptionEntries(entries[..|entries| - 1]) + if entries[|entries| - 1].WithOptions? then 1 else 0
  }

  /** Within the limit, every entry usable, no plain key twice. */
  predicate Acceptable(entries: seq<Entry>, maxEntries: nat) {
    && |entries| <= maxEntries
    && (forall i | 0 <= i < |entries| :: entries[i].Plain? || entries[i].WithOptions?)
    && (forall i, j | 0 <= i < j < |entries| && entries[i].Plain? && entries[j].Plain? :: entries[i].key != entries[j].key)
  }

  function Parse(entries: seq<Entry>): Cache {
    Cache(PlainKeys(entries), OptionEntries(entries))
  }

  /** The cache accepts exactly the keys that stand alone in an entry, and counts the entries with options. */
  ghost predicate Holds(c: Cache, entries: seq<Entry>) {
    && (forall key :: key in c.accepted <==> exists i :: 0 <= i < |entries| && entries[i] == Plain(key))
    && c.ignored == |set i | 0 <= i < |entries| && entries[i] == WithOptions|
  }

  lemma {:induction false} OptionsAreCounted(entries: seq<Entry>)
    ensures OptionEntries(entries) == |set i | 0 <= i < |entries| && entries[i] == WithOptions|
  {
    if entries != [] {
      var n := |entries| - 1;
      var front := entries[..n];
      OptionsAreCounted(front);
      var before := set i | 0 <= i < |front| && front[i] == WithOptions;
      var all := set i | 0 <= i < |entries| && entries[i] == WithOptions;
      assert all == if entries[n].WithOptions? then before + {n} else before by {
        assert forall i | 0 <= i < n :: front[i] == entries[i];
      }
    }
  }

  lemma ParseHolds(entries: seq<Entry>)
    ensures Holds(Parse(entries), entries)
  {
    OptionsAreCounted(entries);
    forall key ensures key in PlainKeys(entries) <==> exists i :: 0 <= i < |entries| && entries[i] == Plain(key) {
      if i :| 0 <= i < |entries| && entries[i] == Plain(key) {
        assert entries[i].Plain? && entries[i].key == key;
      }
    }
  }

  /** Loads exactly the acceptable contents, as the set of their plain keys. */
  method FromText(entries: seq<Entry>, maxEntries: nat) returns (r: Option<Cache>)
    ensures r == if Acceptable(entries, maxEntries) then Some(Parse(entries)) else None
    // which contents load
    ensures r.Some? <==>
              && |entries| <= maxEntries
              && (forall i | 0 <= i < |entries| :: entries[i].Plain? || entries[i].WithOptions?)
              && (forall i, j | 0 <= i < j < |entries| && entries[i].Plain? :: entries[i] != entries[j])
    // and which keys they bring
    ensures r.Some? ==> Holds(r.value, entries)
  {
    ParseHolds(entries);
    var accepted: set<KeyBytes> := {};
    var ignored := 0;
    var i := 0;
    while i < |entries|
      invariant i <= |entries|
      invariant Acceptable(entries[..i], maxEntries)
      invariant accepted == PlainKeys(entries[..i]) && ignored == OptionEntries(entries[..i])
    {
      assert entries[..i + 1] == entries[..i] + [entries[i]];
      OneMoreEntry(entries[..i], entries[i]);
      OneMoreAcceptable(entries[..i], entries[i], maxEntries);
      PartOfAcceptable(entries, i + 1, maxEntries);
      if i >= maxEntries {
        return None;
      }
      match entries[i] {
        case Malformed => return None;
        case Unserializable => return None;
        case WithOptions => ignored := ignored + 1;
        case Plain(key) =>
          if key in accepted {
            return None;
          }
          accepted := accepted + {key};
      }
      i := i + 1;
    }
    assert entries[..i] == entries;
    return Some(Cache(accepted, ignored));
  }

  lemma PartOfAcceptable(entries: seq<Entry>, n: nat, maxEntries: nat)
    requires n <= |entries|
    ensures Acceptable(entries, maxEntries) ==> Acceptable(entries[..n], maxEntries)
  {
  }

  lemma OneMoreAcceptable(before: seq<Entry>, e: Entry, maxEntries: nat)
    requires Acceptable(before, maxEntries)
    ensures Acceptable(before + [e], maxEntries) <==>
              |before| < maxEntries && (e.WithOptions? || (e.Plain? && e.key !in PlainKeys(before)))
  {
    var all := before + [e];
    assert all[|before|] == e && forall i | 0 <= i < |before| :: all[i] == before[i];
    if e.Plain? && e.key in PlainKeys(before) {
      var j :| 0 <= j < |before| && before[j].Plain? && before[j].key == e.key;
      assert all[j].key == all[|before|].key;
    }
  }

  lemma OneMoreEntry(before: seq<Entry>, e: Entry)
    ensures PlainKeys(before + [e]) == PlainKeys(before) + if e.Plain? then {e.key} else {}
    ensures OptionEntries(before + [e]) == OptionEntries(before) + if e.WithOptions? then 1 else 0
  {
    var all := before + [e];
    ButLast(before, e);
    assert all[|before|] == e && forall i | 0 <= i < |before| :: all[i] == before[i];
    forall k | k in PlainKeys(before) ensures k in PlainKeys(all) {
      var i :| 0 <= i < |before| && before[i].Plain? && before[i].key == k;
      assert all[i].Plain? && all[i].key == k;
    }
    if e.Plain? {
      assert all[|before|].Plain? && all[|before|].key in PlainKeys(all);
    }
  }

  // ---------------------------------------------------------------- reloading

  datatype Limits = Limits(maxSize: nat, maxEntries: nat)

  /** The file can be read, is small enough, and its content is acceptable. */
  predicate Loadable(f: File, lim: Limits) {
    && f.File? && f.readable && f.fingerprint.Present? && f.fingerprint.len <= lim.maxSize
    && Acceptable(f.entries, lim.maxEntries)
  }

  method Load(f: File, lim: Limits) returns (r: Option<Cache>)
    ensures r == if Loadable(f, lim) then Some(Parse(f.entries)) else None
  {
    if f.NoFile? || !f.readable || f.fingerprint.Missing? || f.fingerprint.len > lim.maxSize {
      return None;
    }
    r := FromText(f.entries, lim.maxEntries);
  }

  datatype Status = StatusLoaded | StatusMissing | StatusFailed

  /** `Quiet` stands for the three cases in which nothing is reported: not due, unchanged, known to fail. */
  datatype Event = Quiet | StatError | Loaded(generation: nat, ignored: nat) | FileMissing | ReloadFailed

  class AuthorizedKeysState {
    const limits: Limits
    const reloadInterval: nat
    var cache: Cache
    var generation: nat
    var observed: Fingerprint
    var lastFailed: Option<Fingerprint>
    var status: Status
    var nextCheckAt: Instant
    ghost var loads: nat             // how many loads there were
    ghost var lastLoad: File         // the file that was loaded last
    ghost var lastFailure: File      // what the last failed reload found

    /** The cache is the last content that loaded, and the generation counts the loads. */
    ghost predicate Valid()
      reads this
    {
      && generation == Min(loads, U64_MAX)
      && (if loads == 0 then cache == Cache({}, 0) else Loadable(lastLoad, limits) && cache == Parse(lastLoad.entries))
      && (observed.Present? ==> loads > 0 && observed == lastLoad.fingerprint)
      && (lastFailed.Some? ==> lastFailed.value.Present? && !Loadable(lastFailure, limits))
    }

    constructor FromFile(limits: Limits, reloadInterval: nat, file: File, now: Instant)
      requires Loadable(file, limits)
      ensures Valid() && this.limits == limits && this.reloadInterval == reloadInterval
      ensures loads == 1 && lastLoad == file && observed == file.fingerprint && lastFailed == None && nextCheckAt == now + reloadInterval
    {
      this.limits := limits;
      this.reloadInterval := reloadInterval;
      cache := Parse(file.entries);
      generation := 1;
      observed := file.fingerprint;
      lastFailed := None;
      status := StatusLoaded;
      nextCheckAt := now + reloadInterval;
      loads := 1;
      lastLoad := file;
      lastFailure := NoFile;
    }

    constructor FromMissing(limits: Limits, reloadInterval: nat, now: Instant)
      ensures Valid() && this.limits == limits && this.reloadInterval == reloadInterval
      ensures loads == 0 && lastFailed == None && observed == Missing && nextCheckAt == now + reloadInterval
    {
      this.limits := limits;
      this.reloadInterval := reloadInterval;
      cache := Cache({}, 0);
      generation := 0;
      observed := Missing;
      lastFailed := None;
      status := StatusMissing;
      nextCheckAt := now + reloadInterval;
      loads := 0;
      lastLoad := NoFile;
      lastFailure := NoFile;
    }

    /** A key is accepted exactly if it stands alone in an entry of the file that was loaded last. */
    method Contains(key: KeyBytes) returns (b: bool)
      requires Valid()
      ensures b <==> loads > 0 && lastLoad.File? && exists i :: 0 <= i < |lastLoad.entries| && lastLoad.entries[i] == Plain(key)
    {
      if lastLoad.File? {
        ParseHolds(lastLoad.entries);
      }
      return key in cache.accepted;
    }

    /** If `found` has the fingerprint of the content that was loaded last, it has that content. */
    ghost predicate Identifies(found: File)
      requires Valid()
      reads this
    {
      found.File? && loads > 0 && lastLoad.fingerprint == found.fingerprint ==> lastLoad.entries == found.entries
    }

    /** A check is due, and the file seems to have changed to something not known to fail. */
    ghost predicate Attempts(now: Instant, stat: Stat)
      reads this
    {
      now >= nextCheckAt && stat.StatOk? && stat.fingerprint != observed && lastFailed != Some(stat.fingerprint)
    }

    /** A loadable file is passed over because its fingerprint is remembered as failing. */
    ghost predicate Hides(found: File)
      reads this
    {
      found.File? && lastFailed == Some(found.fingerprint) && observed != found.fingerprint
    }

    /** Looks at the file when a check is due: `stat` first, then, if it seems to have changed, what is `found`. */
    method RefreshIfDue(now: Instant, stat: Stat, found: File) returns (e: Event)
      requires Valid()
      modifies this
      ensures Valid()
      // what is reported
      ensures e.Loaded? <==> old(Attempts(now, stat)) && Loadable(found, limits)
      ensures e.FileMissing? <==> old(Attempts(now, stat)) && !Loadable(found, limits) && stat.fingerprint.Missing?
      ensures e.ReloadFailed? <==> old(Attempts(now, stat)) && !Loadable(found, limits) && stat.fingerprint.Present?
      ensures e.StatError? <==> now >= old(nextCheckAt) && stat.StatFailed?
      // only a successful load adds a content; the cache and the generation follow the contents by Valid()
      ensures loads == old(loads) + (if e.Loaded? then 1 else 0)
      ensures lastLoad == if e.Loaded? then found else old(lastLoad)
      ensures e.Loaded? ==> e == Event.Loaded(generation, cache.ignored) && observed == found.fingerprint && status == StatusLoaded
      ensures !e.Loaded? ==> cache == old(cache) && generation == old(generation)
      ensures lastFailed == if e.Loaded? || e.FileMissing? then None else if e.ReloadFailed? then Some(stat.fingerprint) else old(lastFailed)
      ensures e.FileMissing? ==> observed == Missing && status == StatusMissing
      ensures e.ReloadFailed? ==> observed == old(observed) && status == StatusFailed && lastFailure == found
      ensures e.Quiet? || e.StatError? ==> observed == old(observed) && status == old(status) && lastFailure == old(lastFailure)
      ensures nextCheckAt == if now >= old(nextCheckAt) then now + reloadInterval else old(nextCheckAt)
      // exactly a due check that finds a changed file, not known to fail, which can be read, is small enough and has
      // acceptable content replaces the keys, by those of the file
      ensures loads > old(loads) <==>
                && now >= old(nextCheckAt) && stat.StatOk? && stat.fingerprint != old(observed)
                && old(lastFailed) != Some(stat.fingerprint)
                && found.File? && found.readable && found.fingerprint.Present? && found.fingerprint.len <= limits.maxSize
                && Acceptable(found.entries, limits.maxEntries)
      ensures loads > 0 && lastLoad.File? ==> Holds(cache, lastLoad.entries)
      // if stat and read see one loadable file, and fingerprints identify contents, a due check leaves its keys cached
      // unless they are hidden, which takes a failure that did not come from this very file
      ensures now >= old(nextCheckAt) && Loadable(found, limits) && stat == StatOk(found.fingerprint) && old(Identifies(found)) ==>
                if old(Hides(found)) then e.Quiet? && Hides(found) && lastFailure != found else cache == Parse(found.entries)
    {
      if lastLoad.File? {
        ParseHolds(lastLoad.entries);
      }
      if found.File? {
        ParseHolds(found.entries);
      }
      if now < nextCheckAt {
        return Quiet;
      }
      nextCheckAt := now + reloadInterval;
      if stat.StatFailed? {
        return StatError;
      }
      if stat.fingerprint == observed {
        return Quiet;
      }
      if lastFailed == Some(stat.fingerprint) {
        return Quiet;
      }
      var loaded := Load(found, limits);
      if loaded.Some? {
        cache := loaded.value;
        generation := if generation < U64_MAX then generation + 1 else U64_MAX;
        observed := found.fingerprint;
        lastFailed := None;
        status := StatusLoaded;
        loads := loads + 1;
        lastLoad := found;
        return Event.Loaded(generation, cache.ignored);
      }
      if stat.fingerprint.Missing? {
        observed := Missing;
        lastFailed := None;
        status := StatusMissing;
        return FileMissing;
      }
      lastFailed := Some(stat.fingerprint);
      lastFailure := found;
      status := StatusFailed;
      return ReloadFailed;
    }
  }

  /**
   * A failure can hide a good file: whatever was loaded before, a new file that could not be read for a
   * moment stays unloaded, however often it is checked.
   */
  method MomentaryFailureSticks(limits: Limits, before: File, file: File, checks: nat) returns (cache: Cache)
    requires Loadable(before, limits) && Loadable(file, limits) && file.fingerprint != before.fingerprint
    ensures cache == Parse(before.entries)
  {
    var s := new AuthorizedKeysState.FromFile(limits, 1, before, 0);
    var e := s.RefreshIfDue(1, StatOk(file.fingerprint), file.(readable := false));
    var i := 0;
    while i < checks
      invariant s.Valid() && fresh(s) && s.limits == limits && s.reloadInterval == 1 && s.lastLoad == before && s.loads == 1
      invariant s.observed == before.fingerprint && s.lastFailed == Some(file.fingerprint) && s.nextCheckAt == i + 2
    {
      e := s.RefreshIfDue(i + 2, StatOk(file.fingerprint), file);
      i := i + 1;
    }
    cache := s.cache;
  }
}
