/**
 * The length-prefixed frames that carry process input and output between parser and executor
 * (src/executor.rs, send_session_message and read_session_message; src/sshd.rs, send_process_message
 * and read_process_message). Payload coding is a parameter: any pair of functions of which the second
 * undoes the first.
 */
module FrameCodec {
  import opened Common

  const MAX_MESSAGE_SIZE: nat := 1024 * 1024
  const U32_LIMIT: nat := 0x1_0000_0000

  datatype Codec<!M> = Codec(encode: M -> seq<u8>, decode: seq<u8> -> Option<M>)

  ghost predicate Invertible<M(!new)>(c: Codec<M>) {
    forall m :: c.decode(c.encode(m)) == Some(m)
  }

  /** Big-endian, as `write_u32` writes it. */
  function EncodeU32(n: nat): seq<u8>
    requires n < U32_LIMIT
  {
    [(n / 0x100_0000) as u8, (n / 0x1_0000 % 0x100) as u8, (n / 0x100 % 0x100) as u8, (n % 0x100) as u8]
  }

  function DecodeU32(b: seq<u8>): nat
    requires |b| == 4
  {
    ((b[0] as int * 0x100 + b[1] as int) * 0x100 + b[2] as int) * 0x100 + b[3] as int
  }

  lemma U32RoundTrip(n: nat)
    requires n < U32_LIMIT
    ensures DecodeU32(EncodeU32(n)) == n
  {
    var high := n / 0x1_0000;
    assert high / 0x100 == n / 0x100_0000 && high == high / 0x100 * 0x100 + high % 0x100;
    assert n / 0x100 == high * 0x100 + n / 0x100 % 0x100;
  }

  /** The most significant byte comes first. */
  lemma LengthIsBigEndian(n: nat)
    requires n < U32_LIMIT
    ensures var b := EncodeU32(n);
            |b| == 4 && n == b[0] as int * 16_777_216 + b[1] as int * 65_536 + b[2] as int * 256 + b[3] as int
  {
    U32RoundTrip(n);
  }

  /** The writer refuses what does not fit a length word, and nothing else. */
  predicate Writable<M>(c: Codec<M>, m: M) {
    |c.encode(m)| < U32_LIMIT
  }

  function Frame<M>(c: Codec<M>, m: M): seq<u8>
    requires Writable(c, m)
  {
    EncodeU32(|c.encode(m)|) + c.encode(m)
  }

  predicate AllWritable<M>(c: Codec<M>, ms: seq<M>) {
    forall i | 0 <= i < |ms| :: Writable(c, ms[i])
  }

  /** The frames of `ms`, one after the other. */
  function Frames<M>(c: Codec<M>, ms: seq<M>): seq<u8>
    requires AllWritable(c, ms)
  {
    if ms == [] then [] else Frame(c, ms[0]) + Frames(c, ms[1..])
  }

  datatype ReadError = TooLong | TruncatedBody | Undecodable

  datatype ReadResult<M> = Message(message: M, rest: seq<u8>) | End | Broken(error: ReadError)

  /**
   * Reads one message from `input`, after which the stream has ended. Ending inside the length word
   * counts as an end between messages.
   */
  function ReadMessage<M>(c: Codec<M>, input: seq<u8>): ReadResult<M> {
    if |input| < 4 then End
    else
      var length := DecodeU32(input[..4]);
      if length > MAX_MESSAGE_SIZE then Broken(TooLong)
      else if |input| < 4 + length then Broken(TruncatedBody)
      else
        match c.decode(input[4..4 + length])
        case None => Broken(Undecodable)
        case Some(m) => Message(m, input[4 + length..])
  }

  datatype Ending = CleanEnd | Failed(error: ReadError)

  /** Reads messages until the stream ends or breaks. */
  function ReadAll<M>(c: Codec<M>, input: seq<u8>): (seq<M>, Ending)
    decreases |input|
  {
    match ReadMessage(c, input)
    case End => ([], CleanEnd)
    case Broken(error) => ([], Failed(error))
    case Message(m, rest) => var (ms, ending) := ReadAll(c, rest); ([m] + ms, ending)
  }

  /** What the reader makes of a stream that begins with a frame. */
  lemma ReadFrame<M(!new)>(c: Codec<M>, m: M, rest: seq<u8>)
    requires Invertible(c) && Writable(c, m)
    ensures ReadMessage(c, Frame(c, m) + rest)
         == if |c.encode(m)| <= MAX_MESSAGE_SIZE then Message(m, rest) else Broken(TooLong)
  {
    var payload := c.encode(m);
    var input := Frame(c, m) + rest;
    U32RoundTrip(|payload|);
    assert input[..4] == EncodeU32(|payload|);
    assert input[4..4 + |payload|] == payload;
    assert input[4 + |payload|..] == rest;
  }

  predicate Small<M>(c: Codec<M>, m: M) {
    |c.encode(m)| <= MAX_MESSAGE_SIZE
  }

  /** Reading everything, one frame at a time. */
  lemma ReadFirst<M(!new)>(c: Codec<M>, m: M, rest: seq<u8>)
    requires Invertible(c) && Writable(c, m)
    ensures ReadAll(c, Frame(c, m) + rest)
         == if Small(c, m) then ([m] + ReadAll(c, rest).0, ReadAll(c, rest).1) else ([], Failed(TooLong))
  {
    ReadFrame(c, m, rest);
  }

  lemma {:induction false} FramesSplit<M>(c: Codec<M>, a: seq<M>, b: seq<M>)
    requires AllWritable(c, a) && AllWritable(c, b)
    ensures AllWritable(c, a + b)
    ensures Frames(c, a + b) == Frames(c, a) + Frames(c, b)
  {
    if a == [] {
      assert a + b == b;
    } else {
      assert (a + b)[1..] == a[1..] + b;
      FramesSplit(c, a[1..], b);
    }
  }

  /**
   * A stream of frames reads back as the messages written, followed by a clean end, exactly when no
   * payload exceeds one mebibyte. The writer does not check this.
   */
  lemma {:induction false} RoundTrip<M(!new)>(c: Codec<M>, ms: seq<M>)
    requires Invertible(c) && AllWritable(c, ms)
    ensures ReadAll(c, Frames(c, ms)) == (ms, CleanEnd) <==> forall i | 0 <= i < |ms| :: |c.encode(ms[i])| <= 1_048_576
  {
    if ms != [] {
      RoundTrip(c, ms[1..]);
      ReadFirst(c, ms[0], Frames(c, ms[1..]));
      TailSmall(c, ms);
      var (tail, ending) := ReadAll(c, Frames(c, ms[1..]));
      assert [ms[0]] + tail == ms <==> tail == ms[1..] by {
        assert ms == [ms[0]] + ms[1..] && ([ms[0]] + tail)[1..] == tail;
      }
    }
  }

  lemma TailSmall<M>(c: Codec<M>, ms: seq<M>)
    requires ms != []
    ensures (forall i | 0 <= i < |ms| :: Small(c, ms[i]))
       <==> Small(c, ms[0]) && forall i | 0 <= i < |ms[1..]| :: Small(c, ms[1..][i])
  {
    assert forall i | 1 <= i < |ms| :: ms[i] == ms[1..][i - 1];
  }

  /** A proper part of one frame is no message: nothing, if it ends in the length word, else an error. */
  lemma ReadPartOfFrame<M(!new)>(c: Codec<M>, m: M, k: nat)
    requires Writable(c, m) && Small(c, m)
    requires k < |Frame(c, m)|
    ensures ReadAll(c, Frame(c, m)[..k]) == ([], if k < 4 then CleanEnd else Failed(TruncatedBody))
  {
    ReadPart(c, m, k);
  }

  lemma ReadPart<M(!new)>(c: Codec<M>, m: M, k: nat)
    requires Writable(c, m) && Small(c, m)
    requires k < |Frame(c, m)|
    ensures ReadMessage(c, Frame(c, m)[..k]) == if k < 4 then End else Broken(TruncatedBody)
  {
    U32RoundTrip(|c.encode(m)|);
    if k >= 4 {
      assert Frame(c, m)[..k][..4] == EncodeU32(|c.encode(m)|);
    }
  }

  /** What is left of a stream that is cut after `k` bytes, within or behind its first `n` frames. */
  ghost predicate CutAt<M(!new)>(c: Codec<M>, ms: seq<M>, k: nat, n: nat)
    requires AllWritable(c, ms) && k <= |Frames(c, ms)|
  {
    && n <= |ms| && |Frames(c, ms[..n])| <= k && (n < |ms| ==> k < |Frames(c, ms[..n + 1])|)
    && ReadAll(c, Frames(c, ms)[..k])
    == (ms[..n], if k - |Frames(c, ms[..n])| < 4 then CleanEnd else Failed(TruncatedBody))
  }

  lemma CutInFirst<M(!new)>(c: Codec<M>, ms: seq<M>, k: nat)
    requires AllWritable(c, ms) && ms != [] && Small(c, ms[0]) && k < |Frame(c, ms[0])| <= |Frames(c, ms)|
    ensures CutAt(c, ms, k, 0)
  {
    assert Frames(c, ms)[..k] == Frame(c, ms[0])[..k];
    ReadPartOfFrame(c, ms[0], k);
    FramesFront(c, ms, 1);
  }

  lemma ReadAfterFirst<M(!new)>(c: Codec<M>, ms: seq<M>, k: nat)
    requires Invertible(c) && AllWritable(c, ms) && ms != [] && Small(c, ms[0])
    requires |Frame(c, ms[0])| <= k <= |Frames(c, ms)|
    ensures var (rest, ending) := ReadAll(c, Frames(c, ms[1..])[..k - |Frame(c, ms[0])|]);
            ReadAll(c, Frames(c, ms)[..k]) == ([ms[0]] + rest, ending)
  {
    var first, tail := Frame(c, ms[0]), Frames(c, ms[1..]);
    assert Frames(c, ms)[..k] == first + tail[..k - |first|];
    ReadFirst(c, ms[0], tail[..k - |first|]);
  }

  lemma CutLater<M(!new)>(c: Codec<M>, ms: seq<M>, k: nat, n: nat)
    requires Invertible(c) && AllWritable(c, ms) && ms != [] && Small(c, ms[0])
    requires |Frame(c, ms[0])| <= k <= |Frames(c, ms)|
    requires CutAt(c, ms[1..], k - |Frame(c, ms[0])|, n)
    ensures CutAt(c, ms, k, n + 1)
  {
    ReadAfterFirst(c, ms, k);
    FramesFront(c, ms, n + 1);
    if n + 1 < |ms| {
      FramesFront(c, ms, n + 2);
    }
    assert ms[..n + 1] == [ms[0]] + ms[1..][..n];
  }

  /**
   * A stream cut after `k` bytes gives exactly the `n` messages that are complete in it. It ends cleanly
   * when cut between frames or inside a length word, and with an error when cut inside a body.
   */
  lemma {:induction false} Truncation<M(!new)>(c: Codec<M>, ms: seq<M>, k: nat) returns (n: nat)
    requires Invertible(c) && AllWritable(c, ms) && k <= |Frames(c, ms)|
    requires forall i | 0 <= i < |ms| :: Small(c, ms[i])
    ensures CutAt(c, ms, k, n)
  {
    if ms == [] {
      n := 0;
    } else if k < |Frame(c, ms[0])| {
      n := 0;
      CutInFirst(c, ms, k);
    } else {
      var m := Truncation(c, ms[1..], k - |Frame(c, ms[0])|);
      n := m + 1;
      CutLater(c, ms, k, m);
    }
  }

  lemma FramesFront<M>(c: Codec<M>, ms: seq<M>, n: nat)
    requires AllWritable(c, ms) && 1 <= n <= |ms|
    ensures Frames(c, ms[..n]) == Frame(c, ms[0]) + Frames(c, ms[1..][..n - 1])
  {
    assert ms[..n][1..] == ms[1..][..n - 1];
  }
}
