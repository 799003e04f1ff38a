/**
 * The pre-authentication deadlines of a connection (src/sshd.rs, PreauthTimedStream): a login grace
 * time for everything, and, once the client has sent its identification line (section 4.2 of RFC
 * 4253), a time for the key exchange to start.
 *
 * What the stream does depends on the chunks that its polls happened to deliver, not on the bytes
 * alone: whatever follows the newline in the same chunk does not start the key exchange. `Arrivals` is
 * the record of those chunks, and the fields are proved to be functions of it.
 *
 * Whether the client is authenticated is a flag shared with the session, which sets it at any time and
 * never clears it. A poll reads it several times; what each read finds is a parameter.
 */
module PreauthStream {
  import opened Common

  const NEWLINE: u8 := 10
  const USIZE_MAX: nat := 0xFFFF_FFFF_FFFF_FFFF

  /** Nonempty chunks delivered before authentication, oldest innermost. */
  datatype Arrivals = Nothing | Arrived(before: Arrivals, chunk: seq<u8>, at: Instant)

  /** When the identification line was complete: at the first chunk with a newline. */
  function BannerAt(a: Arrivals): Option<Instant> {
    match a
    case Nothing => None
    case Arrived(before, chunk, at) =>
      if BannerAt(before).Some? then BannerAt(before)
      else if NEWLINE in chunk then Some(at)
      else None
  }

  /** Some chunk came after the one that completed the identification line. */
  predicate KexStarted(a: Arrivals) {
    a.Arrived? && BannerAt(a.before).Some?
  }

  /** The time by which the next thing must have happened. Nothing that arrives moves it past `login`. */
  function Deadline(a: Arrivals, login: Instant, kexTimeout: nat): (d: Instant)
    ensures d <= login
  {
    if BannerAt(a).Some? && !KexStarted(a) then Min(BannerAt(a).value + kexTimeout, login) else login
  }

  /** All bytes that arrived, whatever the chunks were. */
  function AllBytes(a: Arrivals): seq<u8> {
    match a
    case Nothing => []
    case Arrived(before, chunk, _) => AllBytes(before) + chunk
  }

  lemma {:induction false} LineEndsAtNewline(a: Arrivals)
    ensures BannerAt(a).Some? <==> NEWLINE in AllBytes(a)
  {
    if a.Arrived? {
      LineEndsAtNewline(a.before);
    }
  }

  /**
   * The chunk with the first newline sets the deadline, whatever follows the newline in it; any other chunk
   * leaves the login deadline, and any chunk after it brings that back.
   */
  lemma DeadlineExactly(a: Arrivals, chunk: seq<u8>, at: Instant, login: Instant, kexTimeout: nat)
    ensures Deadline(Nothing, login, kexTimeout) == login
    ensures Deadline(Arrived(a, chunk, at), login, kexTimeout)
         == if 10 !in AllBytes(a) && 10 in chunk && at + kexTimeout < login then at + kexTimeout else login
  {
    LineEndsAtNewline(a);
  }

  /** Bytes up to and including the first newline. */
  function UpToNewline(chunk: seq<u8>): nat {
    if chunk == [] then 0 else if chunk[0] == NEWLINE then 1 else 1 + UpToNewline(chunk[1..])
  }

  function BannerBytes(a: Arrivals): nat {
    match a
    case Nothing => 0
    case Arrived(before, chunk, _) => BannerBytes(before) + if BannerAt(before).Some? then 0 else UpToNewline(chunk)
  }

  predicate Extends(later: Arrivals, earlier: Arrivals) {
    later == earlier || (later.Arrived? && Extends(later.before, earlier))
  }

  /**
   * The identification line is timed once. The key exchange deadline it sets is the same for every
   * continuation that has delivered nothing since, and gone for every other.
   */
  lemma {:induction false} BannerTimeIsFixed(later: Arrivals, earlier: Arrivals)
    requires Extends(later, earlier) && BannerAt(earlier).Some?
    ensures BannerAt(later) == BannerAt(earlier)
    ensures later != earlier ==> KexStarted(later)
  {
    if later != earlier {
      BannerTimeIsFixed(later.before, earlier);
    }
  }

  lemma {:induction false} NewlineEndsCount(chunk: seq<u8>, i: nat)
    requires i < |chunk| && chunk[i] == NEWLINE
    requires forall j | 0 <= j < i :: chunk[j] != NEWLINE
    ensures UpToNewline(chunk) == i + 1
  {
    if i > 0 {
      NewlineEndsCount(chunk[1..], i - 1);
    }
  }

  lemma {:induction false} NoNewlineCountsAll(chunk: seq<u8>)
    requires NEWLINE !in chunk
    ensures UpToNewline(chunk) == |chunk|
  {
    if chunk != [] {
      NoNewlineCountsAll(chunk[1..]);
    }
  }

  datatype Timeout = LoginGraceExceeded | KexDidNotStart

  /** What the wrapped stream answers to a read. */
  datatype Inner = Delivered(chunk: seq<u8>) | InnerFailed | InnerPending

  datatype PollResult = Ready(chunk: seq<u8>) | ReadyError | TimedOut(timeout: Timeout) | Pending

  class PreauthTimedStream {
    const loginDeadline: Instant
    const kexStartTimeout: nat
    var kexStartDeadline: Option<Instant>
    var kexStarted: bool
    var bannerComplete: bool
    var bannerLen: nat
    var timer: Instant
    ghost var arrivals: Arrivals

    /** Every field is determined by what arrived, and the timer is armed at the current deadline. */
    ghost predicate Valid()
      reads this
    {
      && bannerComplete == BannerAt(arrivals).Some?
      && kexStarted == KexStarted(arrivals)
      && kexStartDeadline == (if bannerComplete && !kexStarted then Some(BannerAt(arrivals).value + kexStartTimeout) else None)
      && bannerLen == Min(BannerBytes(arrivals), USIZE_MAX)
      && timer == Deadline(arrivals, loginDeadline, kexStartTimeout)
    }

    constructor (loginDeadline: Instant, kexStartTimeout: nat)
      ensures Valid() && arrivals == Nothing
      ensures this.loginDeadline == loginDeadline && this.kexStartTimeout == kexStartTimeout
    {
      this.loginDeadline := loginDeadline;
      this.kexStartTimeout := kexStartTimeout;
      kexStartDeadline := None;
      kexStarted := false;
      bannerComplete := false;
      bannerLen := 0;
      timer := loginDeadline;
      arrivals := Nothing;
    }

    function CurrentDeadline(): (d: Instant)
      requires Valid()
      reads this
      ensures d == Deadline(arrivals, loginDeadline, kexStartTimeout)
    {
      if kexStartDeadline.Some? && !kexStarted then Min(kexStartDeadline.value, loginDeadline) else loginDeadline
    }

    /** A timeout is due exactly when the deadline has passed, and the login deadline is reported first. */
    function CheckTimeout(authenticated: bool, now: Instant): (t: Option<Timeout>)
      requires Valid()
      reads this
      ensures t.Some? <==> !authenticated && now >= Deadline(arrivals, loginDeadline, kexStartTimeout)
      ensures t.Some? ==> TimeoutIsDue(t.value, now) && (t.value.LoginGraceExceeded? <==> now >= loginDeadline)
    {
      if authenticated then None
      else if now >= loginDeadline then Some(LoginGraceExceeded)
      else if kexStartDeadline.Some? && !kexStarted && now >= kexStartDeadline.value then Some(KexDidNotStart)
      else None
    }

    /** The timeout names what the client has failed to do by `now`. */
    ghost predicate TimeoutIsDue(t: Timeout, now: Instant)
      reads this
    {
      match t
      case LoginGraceExceeded => now >= loginDeadline
      case KexDidNotStart =>
        BannerAt(arrivals).Some? && !KexStarted(arrivals) && now >= BannerAt(arrivals).value + kexStartTimeout
    }

    /** Takes note of a chunk; `now` is the time at which a newline in it is seen. */
    method NoteClientBytes(authenticated: bool, bytes: seq<u8>, now: Instant)
      requires Valid()
      modifies this
      ensures Valid()
      ensures arrivals == if authenticated || bytes == [] then old(arrivals) else Arrived(old(arrivals), bytes, now)
      // the timer is armed for the key exchange exactly by the first newline
      ensures !authenticated && bytes != [] ==>
                timer == if 10 !in AllBytes(old(arrivals)) && 10 in bytes && now + kexStartTimeout < loginDeadline
                         then now + kexStartTimeout else loginDeadline
    {
      if authenticated || bytes == [] {
        return;
      }
      DeadlineExactly(arrivals, bytes, now, loginDeadline, kexStartTimeout);
      arrivals := Arrived(arrivals, bytes, now);
      if !bannerComplete {
        var start := bannerLen;
        var i := 0;
        while i < |bytes|
          invariant i <= |bytes| && bannerLen == Min(start + i, USIZE_MAX)
          invariant forall j | 0 <= j < i :: bytes[j] != NEWLINE
          invariant !bannerComplete && kexStartDeadline == old(kexStartDeadline) && kexStarted == old(kexStarted)
          invariant timer == old(timer)
          invariant arrivals == Arrived(old(arrivals), bytes, now)
        {
          bannerLen := if bannerLen < USIZE_MAX then bannerLen + 1 else USIZE_MAX;
          if bytes[i] == NEWLINE {
            NewlineEndsCount(bytes, i);
            bannerComplete := true;
            kexStartDeadline := Some(now + kexStartTimeout);
            timer := Min(now + kexStartTimeout, loginDeadline);
            return;
          }
          i := i + 1;
        }
        NoNewlineCountsAll(bytes);
        return;
      }
      if !kexStarted {
        kexStarted := true;
        kexStartDeadline := None;
        timer := loginDeadline;
      }
    }

    /**
     * Checks the deadline when the wrapped stream has nothing. Flag and clock are read at `first` and, if
     * the timer has `fired`, at `second`; a timer fires late at worst. `madeUp` tells whether the error had
     * to be made up because no timeout was due.
     */
    method PollDeadline(auth1: bool, first: Instant, fired: bool, auth2: bool, second: Instant)
      returns (r: PollResult, madeUp: bool)
      requires Valid() && first <= second && (auth1 ==> auth2)
      requires fired ==> timer <= second
      ensures r.Pending? || r.TimedOut?
      ensures r.TimedOut? && !madeUp ==> TimeoutIsDue(r.timeout, second) && !auth1
      ensures r.Pending? ==> auth1 || first < Deadline(arrivals, loginDeadline, kexStartTimeout)
      ensures madeUp ==> r.TimedOut?
      ensures madeUp <==> fired && auth2 && (auth1 || first < Deadline(arrivals, loginDeadline, kexStartTimeout))
    {
      var due := CheckTimeout(auth1, first);
      if due.Some? {
        return TimedOut(due.value), false;
      }
      if !fired {
        return Pending, false;
      }
      due := CheckTimeout(auth2, second);
      if due.Some? {
        return TimedOut(due.value), false;
      }
      return TimedOut(LoginGraceExceeded), true;
    }

    /** What the wrapped stream answers, passed on. */
    function PassedOn(inner: Inner): PollResult {
      match inner
      case Delivered(chunk) => Ready(chunk)
      case InnerFailed => ReadyError
      case InnerPending => Pending
    }

    /**
     * One read. The clock is read at `start`, and then as needed at `first` and `second`; the flag is read
     * before `start` and at each of these times.
     */
    method PollRead(auth0: bool, auth1: bool, start: Instant, inner: Inner,
                    auth2: bool, first: Instant, fired: bool, auth3: bool, second: Instant)
      returns (r: PollResult, madeUp: bool)
      requires Valid() && start <= first <= second
      requires (auth0 ==> auth1) && (auth1 ==> auth2) && (auth2 ==> auth3)
      requires fired ==> timer <= second
      modifies this
      ensures Valid()
      // a client that stays unauthenticated is cut off at the deadline whatever it has sent
      ensures !auth1 && start >= old(Deadline(arrivals, loginDeadline, kexStartTimeout)) ==>
                r.TimedOut? && !madeUp && arrivals == old(arrivals)
      ensures !auth2 && r.Pending? ==> first < old(Deadline(arrivals, loginDeadline, kexStartTimeout))
      // it is cut off only for a timeout that is due and while it is not authenticated, unless the error is made up
      ensures r.TimedOut? && !madeUp ==> old(TimeoutIsDue(r.timeout, second)) && !auth1
      // that happens exactly if the flag is set in the middle of a poll that finds nothing and whose timer has fired
      ensures madeUp ==> r.TimedOut?
      ensures madeUp <==>
                && !auth0 && auth3 && inner.InnerPending? && fired
                && (auth1 || start < old(Deadline(arrivals, loginDeadline, kexStartTimeout)))
                && (auth2 || first < old(Deadline(arrivals, loginDeadline, kexStartTimeout)))
      // otherwise the wrapped stream decides, and always once the client is authenticated
      ensures !r.TimedOut? ==> r == PassedOn(inner)
      ensures auth0 ==> r == PassedOn(inner)
      ensures arrivals == if r.Ready? && !auth0 && !auth2 && r.chunk != [] then Arrived(old(arrivals), r.chunk, first) else old(arrivals)
    {
      madeUp := false;
      if auth0 {
        return PassedOn(inner), false;
      }
      var due := CheckTimeout(auth1, start);
      if due.Some? {
        return TimedOut(due.value), false;
      }
      match inner {
        case Delivered(chunk) =>
          NoteClientBytes(auth2, chunk, first);
          r := Ready(chunk);
        case InnerFailed =>
          r := ReadyError;
        case InnerPending =>
          r, madeUp := PollDeadline(auth2, first, fired, auth3, second);
      }
    }
  }
}
