/**
 * From a child process to its SSH channel (src/executor.rs, start_piped_process_service and
 * read_process_stream; src/sshd.rs, bridge_process_channel).
 *
 * Two tasks read the child's stdout and stderr in chunks of at most 8 KiB into one queue. The service
 * loop selects between that queue and the child's exit, and writes frames to a byte stream, a frame in
 * as many pieces as the stream takes. The bridge reads frames off the stream and writes channel messages
 * (sections 5.2 and 6.10 of RFC 4254). All of this runs concurrently; a step below is one of these tasks
 * getting its turn. Failing writes and failing reads of the child's pipes are not steps of this model.
 */
module ProcessPipeline {
  import opened Common
  import opened FrameCodec

  const CHUNK: nat := 8192

  type ExitCode = n: nat | n < U32_LIMIT

  datatype Output = Stdout(data: seq<u8>) | Stderr(data: seq<u8>) | ExitStatus(code: ExitCode)

  datatype ChannelMsg =
    | Data(data: seq<u8>)
    | ExtendedData(data: seq<u8>)
    | ExitStatusRequest(code: ExitCode)
    | Eof
    | Close

  /** `written` records all the child ever wrote; `unread` is what the reading task has not taken yet. */
  datatype Pipe = Pipe(written: seq<u8>, unread: seq<u8>, closed: bool, done: bool)

  datatype Phase = Looping | ExitSent | Shut

  datatype State = State(
    out: Pipe, err: Pipe,
    reported: Option<ExitCode>,     // exit code handed over by the task that waits for the child
    queue: seq<Output>,
    childExit: Option<ExitCode>, outputClosed: bool, phase: Phase,
    outbox: seq<u8>,           // what the service still has to write of the frame it is sending
    wire: seq<u8>,             // bytes written by the service and not yet taken by the bridge as a message
    exitStatus: Option<ExitCode>, channel: seq<ChannelMsg>, finished: bool, failed: bool,
    sent: seq<Output>, received: nat)  // records: messages framed so far, and how many of them were read

  const EMPTY_PIPE := Pipe([], [], false, false)

  function Initial(): State {
    State(EMPTY_PIPE, EMPTY_PIPE, None, [], None, false, Looping, [], [], None, [], false, false, [], 0)
  }

  datatype Step =
    | ChildWrites(toOut: bool, bytes: seq<u8>)
    | ChildCloses(ofOut: bool)
    | ExitReported(code: ExitCode)
    | ReadChunk(ofOut: bool, n: nat)
    | ReadEof(ofOut: bool)
    | ForwardOutput
    | NoticeOutputClosed
    | NoticeExit
    | SendExit
    | WriteBytes(n: nat)
    | Shutdown
    | BridgeMessage
    | BridgeEnd
    | BridgeFails

  function PipeOf(s: State, isOut: bool): Pipe {
    if isOut then s.out else s.err
  }

  function WithPipe(s: State, isOut: bool, p: Pipe): State {
    s.(out := if isOut then p else s.out, err := if isOut then s.err else p)
  }

  predicate Selecting(s: State) {
    s.phase.Looping? && s.outbox == []
  }

  predicate Enabled(c: Codec<Output>, s: State, step: Step) {
    match step
    case ChildWrites(toOut, _) => !PipeOf(s, toOut).closed
    case ChildCloses(ofOut) => true
    case ExitReported(_) => s.reported.None?
    case ReadChunk(ofOut, n) => !PipeOf(s, ofOut).done && 1 <= n <= Min(CHUNK, |PipeOf(s, ofOut).unread|)
    case ReadEof(ofOut) => var p := PipeOf(s, ofOut); p.closed && p.unread == [] && !p.done
    // the service loop comes round again when it has written the whole frame
    case ForwardOutput => Selecting(s) && !s.outputClosed && s.queue != [] && Writable(c, s.queue[0])
    case NoticeOutputClosed => Selecting(s) && !s.outputClosed && s.queue == [] && s.out.done && s.err.done
    case NoticeExit => Selecting(s) && s.childExit.None? && s.reported.Some?
    case SendExit =>
      Selecting(s) && s.outputClosed && s.childExit.Some? && Writable(c, ExitStatus(s.childExit.value))
    case WriteBytes(n) => 1 <= n <= |s.outbox|
    case Shutdown => s.phase.ExitSent? && s.outbox == []
    case BridgeMessage => !s.finished && !s.failed && ReadMessage(c, s.wire).Message?
    case BridgeEnd => !s.finished && !s.failed && s.phase.Shut? && ReadMessage(c, s.wire).End?
    case BridgeFails =>
      // an incomplete body is an error only once the stream has ended
      && !s.finished && !s.failed && ReadMessage(c, s.wire).Broken?
      && (ReadMessage(c, s.wire).error.TruncatedBody? ==> s.phase.Shut?)
  }

  function Apply(c: Codec<Output>, s: State, step: Step): State
    requires Enabled(c, s, step)
  {
    match step
    case ChildWrites(toOut, bytes) =>
      var p := PipeOf(s, toOut);
      WithPipe(s, toOut, p.(written := p.written + bytes, unread := p.unread + bytes))
    case ChildCloses(ofOut) => WithPipe(s, ofOut, PipeOf(s, ofOut).(closed := true))
    case ExitReported(code) => s.(reported := Some(code))
    case ReadChunk(ofOut, n) =>
      var p := PipeOf(s, ofOut);
      var chunk := p.unread[..n];
      var rest := p.(unread := p.unread[n..]);
      s.(out := if ofOut then rest else s.out, err := if ofOut then s.err else rest,
         queue := s.queue + [if ofOut then Stdout(chunk) else Stderr(chunk)])
    case ReadEof(ofOut) => WithPipe(s, ofOut, PipeOf(s, ofOut).(done := true))
    case ForwardOutput =>
      s.(queue := s.queue[1..], outbox := Frame(c, s.queue[0]), sent := s.sent + [s.queue[0]])
    case NoticeOutputClosed => s.(outputClosed := true)
    case NoticeExit => s.(childExit := s.reported)
    case SendExit =>
      var m := ExitStatus(s.childExit.value);
      s.(phase := ExitSent, outbox := Frame(c, m), sent := s.sent + [m])
    case WriteBytes(n) => s.(wire := s.wire + s.outbox[..n], outbox := s.outbox[n..])
    case Shutdown => s.(phase := Shut)
    case BridgeMessage =>
      var Message(m, rest) := ReadMessage(c, s.wire);
      Bridged(s, m, rest)
    case BridgeEnd =>
      s.(finished := true,
         channel := s.channel + (if s.exitStatus.Some? then [ExitStatusRequest(s.exitStatus.value)] else []) + [Eof, Close])
    case BridgeFails => s.(failed := true)
  }

  /** What the bridge writes to the channel at once for a message. */
  function OnChannel(m: Output): seq<ChannelMsg> {
    match m
    case Stdout(data) => [Data(data)]
    case Stderr(data) => [ExtendedData(data)]
    case ExitStatus(_) => []
  }

  function Bridged(s: State, m: Output, rest: seq<u8>): State {
    s.(wire := rest, received := s.received + 1,
       exitStatus := if m.ExitStatus? then Some(m.code) else s.exitStatus,
       channel := s.channel + OnChannel(m))
  }

  datatype Run = Begin | Next(before: Run, step: Step)

  function Final(c: Codec<Output>, run: Run): State
    requires Legal(c, run)
    decreases run, 1
  {
    match run
    case Begin => Initial()
    case Next(before, step) => Apply(c, Final(c, before), step)
  }

  predicate Legal(c: Codec<Output>, run: Run)
    decreases run, 0
  {
    match run
    case Begin => true
    case Next(before, step) => Legal(c, before) && Enabled(c, Final(c, before), step)
  }

  // ---------------------------------------------------------------- bytes

  /** The bytes of one stream in a sequence of messages. */
  function Bytes(isOut: bool, ms: seq<Output>): seq<u8> {
    if ms == [] then []
    else
      var n := |ms| - 1;
      Bytes(isOut, ms[..n]) + (if (if isOut then ms[n].Stdout? else ms[n].Stderr?) then ms[n].data else [])
  }

  function ChannelOf(ms: seq<Output>): seq<ChannelMsg> {
    if ms == [] then [] else ChannelOf(ms[..|ms| - 1]) + OnChannel(ms[|ms| - 1])
  }

  /** The bytes of one stream on the channel. */
  function ChannelBytes(isOut: bool, ms: seq<ChannelMsg>): seq<u8> {
    if ms == [] then []
    else
      var n := |ms| - 1;
      ChannelBytes(isOut, ms[..n])
      + (if (if isOut then ms[n].Data? else ms[n].ExtendedData?) then ms[n].data else [])
  }

  lemma BytesAppend(isOut: bool, ms: seq<Output>, m: Output)
    ensures Bytes(isOut, ms + [m])
         == Bytes(isOut, ms) + (if (if isOut then m.Stdout? else m.Stderr?) then m.data else [])
  {
    ButLast(ms, m);
  }

  lemma {:induction false} BytesSplit(isOut: bool, a: seq<Output>, b: seq<Output>)
    ensures Bytes(isOut, a + b) == Bytes(isOut, a) + Bytes(isOut, b)
  {
    if b == [] {
      assert a + b == a;
    } else {
      var n := |b| - 1;
      assert a + b == (a + b[..n]) + [b[n]];
      BytesAppend(isOut, a + b[..n], b[n]);
      BytesSplit(isOut, a, b[..n]);
    }
  }

  lemma ChannelBytesAppend(isOut: bool, ms: seq<ChannelMsg>, m: ChannelMsg)
    ensures ChannelBytes(isOut, ms + [m])
         == ChannelBytes(isOut, ms) + (if (if isOut then m.Data? else m.ExtendedData?) then m.data else [])
  {
    ButLast(ms, m);
  }

  /** The channel carries the bytes that the messages carry. */
  lemma {:induction false} ChannelCarriesBytes(isOut: bool, ms: seq<Output>)
    ensures ChannelBytes(isOut, ChannelOf(ms)) == Bytes(isOut, ms)
  {
    if ms != [] {
      var n := |ms| - 1;
      ChannelCarriesBytes(isOut, ms[..n]);
      if ms[n].ExitStatus? {
        assert ChannelOf(ms) == ChannelOf(ms[..n]);
      } else {
        ChannelBytesAppend(isOut, ChannelOf(ms[..n]), OnChannel(ms[n])[0]);
      }
    }
  }

  // ---------------------------------------------------------------- the invariant

  /** Chunks are at most 8 KiB. */
  predicate Bounded(m: Output) {
    m.ExitStatus? || |m.data| <= CHUNK
  }

  /** A payload codec that undoes itself and keeps a chunk within a frame. */
  ghost predicate Suitable(c: Codec<Output>) {
    Invertible(c) && forall m: Output | Bounded(m) :: Small(c, m)
  }

  predicate AllBounded(ms: seq<Output>) {
    forall i | 0 <= i < |ms| :: Bounded(ms[i])
  }

  predicate OnlyData(ms: seq<Output>) {
    forall i | 0 <= i < |ms| :: !ms[i].ExitStatus?
  }

  /** Every byte that the child wrote is in exactly one place, in order. */
  predicate StreamOk(s: State, isOut: bool) {
    var p := PipeOf(s, isOut);
    && p.written == Bytes(isOut, s.sent) + Bytes(isOut, s.queue) + p.unread
    && (p.done ==> p.closed && p.unread == [])
  }

  /** The exit status is the last message, sent once all output was. */
  predicate ServiceOk(s: State) {
    && AllBounded(s.queue) && OnlyData(s.queue) && AllBounded(s.sent)
    && (s.outputClosed ==> s.queue == [] && s.out.done && s.err.done)
    && (s.childExit.Some? ==> s.childExit == s.reported)
    && (s.phase.Shut? ==> s.outbox == [])
    && if s.phase.Looping? then OnlyData(s.sent)
       else
         && s.outputClosed && s.childExit.Some? && s.sent != []
         && OnlyData(s.sent[..|s.sent| - 1]) && s.sent[|s.sent| - 1] == ExitStatus(s.childExit.value)
  }

  /** On the wire and in the outbox are the frames that the bridge has not read. */
  predicate WireOk(c: Codec<Output>, s: State) {
    && s.received <= |s.sent|
    && AllWritable(c, s.sent[s.received..])
    && s.wire + s.outbox == Frames(c, s.sent[s.received..])
  }

  function ExitOf(ms: seq<Output>): Option<ExitCode> {
    if ms != [] && ms[|ms| - 1].ExitStatus? then Some(ms[|ms| - 1].code) else None
  }

  predicate BridgeOk(s: State)
    requires s.received <= |s.sent|
  {
    && !s.failed
    && if !s.finished then
         s.channel == ChannelOf(s.sent[..s.received]) && s.exitStatus == ExitOf(s.sent[..s.received])
       else
         && s.phase.Shut? && s.received == |s.sent| && s.childExit.Some?
         && s.channel == ChannelOf(s.sent) + [ExitStatusRequest(s.childExit.value), Eof, Close]
  }

  ghost predicate Inv(c: Codec<Output>, s: State) {
    StreamOk(s, true) && StreamOk(s, false) && ServiceOk(s) && WireOk(c, s) && BridgeOk(s)
  }

  /** A chunk moves from the pipe to the end of the queue. */
  lemma ChunkMoves(isOut: bool, sent: seq<Output>, queue: seq<Output>, unread: seq<u8>, n: nat)
    requires n <= |unread|
    ensures
      var m := if isOut then Stdout(unread[..n]) else Stderr(unread[..n]);
      && Bytes(isOut, sent) + Bytes(isOut, queue + [m]) + unread[n..] == Bytes(isOut, sent) + Bytes(isOut, queue) + unread
      && Bytes(!isOut, queue + [m]) == Bytes(!isOut, queue)
  {
    var m := if isOut then Stdout(unread[..n]) else Stderr(unread[..n]);
    BytesAppend(isOut, queue, m);
    BytesAppend(!isOut, queue, m);
    var a, b := Bytes(isOut, sent), Bytes(isOut, queue);
    assert a + (b + unread[..n]) + unread[n..] == a + b + unread;
  }

  lemma ReadChunkKeeps(c: Codec<Output>, s: State, ofOut: bool, n: nat)
    requires Inv(c, s) && Enabled(c, s, ReadChunk(ofOut, n))
    ensures Inv(c, Apply(c, s, ReadChunk(ofOut, n)))
  {
    ChunkMoves(ofOut, s.sent, s.queue, PipeOf(s, ofOut).unread, n);
  }

  lemma ChildStepKeeps(c: Codec<Output>, s: State, step: Step)
    requires Inv(c, s) && Enabled(c, s, step)
    requires step.ChildWrites? || step.ChildCloses? || step.ReadEof? || step.ExitReported?
    ensures Inv(c, Apply(c, s, step))
  {
    if step.ChildWrites? {
      var p := PipeOf(s, step.toOut);
      var before := Bytes(step.toOut, s.sent) + Bytes(step.toOut, s.queue);
      assert before + p.unread + step.bytes == before + (p.unread + step.bytes);
    }
  }

  lemma FrameAppends(c: Codec<Output>, s: State, m: Output)
    requires Suitable(c) && WireOk(c, s) && Bounded(m) && s.outbox == []
    ensures Writable(c, m)
    ensures WireOk(c, s.(outbox := Frame(c, m), sent := s.sent + [m]))
  {
    assert Small(c, m);
    var flying := s.sent[s.received..];
    assert (s.sent + [m])[s.received..] == flying + [m];
    assert Frames(c, [m]) == Frame(c, m) by { assert [m][1..] == [] && Frames(c, [m][1..]) == []; }
    FramesSplit(c, flying, [m]);
  }

  lemma WriteBytesKeeps(c: Codec<Output>, s: State, n: nat)
    requires Inv(c, s) && Enabled(c, s, WriteBytes(n))
    ensures Inv(c, Apply(c, s, WriteBytes(n)))
  {
    Reassociate(s.wire, s.outbox[..n], s.outbox[n..]);
    assert s.outbox[..n] + s.outbox[n..] == s.outbox;
  }

  /** The head of the queue becomes the newest frame. */
  lemma ForwardOutputKeeps(c: Codec<Output>, s: State)
    requires Suitable(c) && Inv(c, s) && Enabled(c, s, ForwardOutput)
    ensures Inv(c, Apply(c, s, ForwardOutput))
  {
    var m := s.queue[0];
    FrameAppends(c, s, m);
    var s' := Apply(c, s, ForwardOutput);
    forall isOut: bool ensures StreamOk(s', isOut) {
      assert StreamOk(s, isOut);
      MoveHead(isOut, s.sent, s.queue);
    }
    assert s'.sent[..s.received] == s.sent[..s.received];
  }

  lemma Reassociate(a: seq<u8>, b: seq<u8>, c: seq<u8>)
    ensures (a + b) + c == a + (b + c)
  {
  }

  lemma MoveHead(isOut: bool, sent: seq<Output>, queue: seq<Output>)
    requires queue != []
    ensures Bytes(isOut, sent + [queue[0]]) + Bytes(isOut, queue[1..]) == Bytes(isOut, sent) + Bytes(isOut, queue)
  {
    var head, rest := [queue[0]], queue[1..];
    assert queue == head + rest;
    BytesSplit(isOut, sent, head);
    BytesSplit(isOut, head, rest);
    Reassociate(Bytes(isOut, sent), Bytes(isOut, head), Bytes(isOut, rest));
  }

  lemma SendExitKeeps(c: Codec<Output>, s: State)
    requires Suitable(c) && Inv(c, s) && Enabled(c, s, SendExit)
    ensures Inv(c, Apply(c, s, SendExit))
  {
    var m := ExitStatus(s.childExit.value);
    FrameAppends(c, s, m);
    BytesAppend(true, s.sent, m);
    BytesAppend(false, s.sent, m);
    var s' := Apply(c, s, SendExit);
    assert s'.sent[..s.received] == s.sent[..s.received];
    assert s'.sent[..|s'.sent| - 1] == s.sent;
  }

  /** The oldest frame that was not read is on the wire, all of it. */
  predicate Arrived(c: Codec<Output>, s: State) {
    s.received < |s.sent| && Writable(c, s.sent[s.received]) && |Frame(c, s.sent[s.received])| <= |s.wire|
  }

  function AfterFrame(c: Codec<Output>, s: State): seq<u8>
    requires Arrived(c, s)
  {
    s.wire[|Frame(c, s.sent[s.received])|..]
  }

  /** Once a frame has arrived, the bridge finds its message, and behind it the frames that follow. */
  lemma BridgeFindsMessage(c: Codec<Output>, s: State)
    requires Suitable(c) && ServiceOk(s) && WireOk(c, s) && Arrived(c, s)
    ensures ReadMessage(c, s.wire) == Message(s.sent[s.received], AfterFrame(c, s))
    ensures AllWritable(c, s.sent[s.received + 1..])
    ensures AfterFrame(c, s) + s.outbox == Frames(c, s.sent[s.received + 1..])
  {
    var flying := s.sent[s.received..];
    assert flying[1..] == s.sent[s.received + 1..];
    assert Small(c, flying[0]);
    var first := Frame(c, flying[0]);
    assert s.wire == first + AfterFrame(c, s) by {
      assert s.wire[..|first|] == (s.wire + s.outbox)[..|first|] == first;
    }
    assert AfterFrame(c, s) + s.outbox == (s.wire + s.outbox)[|first|..];
    ReadFrame(c, flying[0], AfterFrame(c, s));
  }

  /** Before that it finds the end, or a part of a frame, and a part only while the rest is being written. */
  lemma BridgeFindsPart(c: Codec<Output>, s: State)
    requires Suitable(c) && ServiceOk(s) && WireOk(c, s) && !Arrived(c, s)
    ensures ReadMessage(c, s.wire) in {End, Broken(TruncatedBody)}
    ensures s.received < |s.sent| ==> s.outbox != []
    ensures s.received == |s.sent| ==> ReadMessage(c, s.wire).End?
  {
    if s.received < |s.sent| {
      var flying := s.sent[s.received..];
      assert Small(c, flying[0]) && Writable(c, flying[0]);
      var first := Frame(c, flying[0]);
      assert s.wire == (s.wire + s.outbox)[..|s.wire|] == first[..|s.wire|];
      ReadPart(c, flying[0], |s.wire|);
    }
  }

  /** The channel after one more message, and the exit status if that was the last one. */
  lemma OneMoreOnChannel(s: State)
    requires ServiceOk(s) && s.received < |s.sent|
    ensures
      var n, m := s.received, s.sent[s.received];
      && ChannelOf(s.sent[..n + 1]) == ChannelOf(s.sent[..n]) + OnChannel(m)
      && ExitOf(s.sent[..n + 1]) == if m.ExitStatus? then Some(m.code) else ExitOf(s.sent[..n])
  {
    var n := s.received;
    assert s.sent[..n + 1][..n] == s.sent[..n];
    assert n > 0 && !s.phase.Looping? ==> s.sent[..|s.sent| - 1][n - 1] == s.sent[n - 1];
  }

  lemma BridgedChannel(s: State, rest: seq<u8>)
    requires ServiceOk(s) && s.received < |s.sent| && BridgeOk(s) && !s.finished
    ensures BridgeOk(Bridged(s, s.sent[s.received], rest))
  {
    OneMoreOnChannel(s);
  }

  lemma BridgedElsewhere(s: State, m: Output, rest: seq<u8>)
    requires StreamOk(s, true) && StreamOk(s, false) && ServiceOk(s)
    ensures var s' := Bridged(s, m, rest); StreamOk(s', true) && StreamOk(s', false) && ServiceOk(s')
  {
  }

  lemma BridgeMessageKeeps(c: Codec<Output>, s: State)
    requires Suitable(c) && Inv(c, s) && Enabled(c, s, BridgeMessage)
    ensures Inv(c, Apply(c, s, BridgeMessage))
  {
    if !Arrived(c, s) {
      BridgeFindsPart(c, s);
    }
    BridgeFindsMessage(c, s);
    BridgedChannel(s, AfterFrame(c, s));
    BridgedElsewhere(s, s.sent[s.received], AfterFrame(c, s));
  }

  lemma BridgeEndKeeps(c: Codec<Output>, s: State)
    requires Suitable(c) && Inv(c, s) && Enabled(c, s, BridgeEnd)
    ensures Inv(c, Apply(c, s, BridgeEnd))
  {
    WhatEndsTheBridge(c, s);
    assert s.sent[..s.received] == s.sent;
  }

  /** The bridge sees the end of the stream only behind the last message, and never a broken frame. */
  lemma WhatEndsTheBridge(c: Codec<Output>, s: State)
    requires Suitable(c) && ServiceOk(s) && WireOk(c, s)
    ensures s.phase.Shut? && ReadMessage(c, s.wire).End? ==> s.received == |s.sent|
    ensures ReadMessage(c, s.wire).Broken? ==> ReadMessage(c, s.wire).error.TruncatedBody? && !s.phase.Shut?
  {
    if Arrived(c, s) {
      BridgeFindsMessage(c, s);
    } else {
      BridgeFindsPart(c, s);
    }
  }

  lemma ServiceStepKeeps(c: Codec<Output>, s: State, step: Step)
    requires Inv(c, s) && Enabled(c, s, step)
    requires step.NoticeOutputClosed? || step.NoticeExit? || step.Shutdown?
    ensures Inv(c, Apply(c, s, step))
  {
  }

  lemma StepKeeps(c: Codec<Output>, s: State, step: Step)
    requires Suitable(c) && Inv(c, s) && Enabled(c, s, step)
    ensures Inv(c, Apply(c, s, step))
  {
    match step {
      case ChildWrites(_, _) => ChildStepKeeps(c, s, step);
      case ChildCloses(_) => ChildStepKeeps(c, s, step);
      case ExitReported(_) => ChildStepKeeps(c, s, step);
      case ReadChunk(ofOut, n) => ReadChunkKeeps(c, s, ofOut, n);
      case ReadEof(_) => ChildStepKeeps(c, s, step);
      case ForwardOutput => ForwardOutputKeeps(c, s);
      case NoticeOutputClosed => ServiceStepKeeps(c, s, step);
      case NoticeExit => ServiceStepKeeps(c, s, step);
      case SendExit => SendExitKeeps(c, s);
      case WriteBytes(n) => WriteBytesKeeps(c, s, n);
      case Shutdown => ServiceStepKeeps(c, s, step);
      case BridgeMessage => BridgeMessageKeeps(c, s);
      case BridgeEnd => BridgeEndKeeps(c, s);
      case BridgeFails => WhatEndsTheBridge(c, s);
    }
  }

  lemma {:induction false} RunKeeps(c: Codec<Output>, run: Run)
    requires Suitable(c) && Legal(c, run)
    ensures Inv(c, Final(c, run))
  {
    match run {
      case Begin =>
      case Next(before, step) =>
        RunKeeps(c, before);
        StepKeeps(c, Final(c, before), step);
    }
  }

  // ---------------------------------------------------------------- what this means for the channel

  lemma ClosingAddsNoBytes(isOut: bool, ms: seq<ChannelMsg>, code: ExitCode)
    ensures ChannelBytes(isOut, ms + [ExitStatusRequest(code), Eof, Close]) == ChannelBytes(isOut, ms)
  {
    var a := ms + [ExitStatusRequest(code)];
    ChannelBytesAppend(isOut, ms, ExitStatusRequest(code));
    ChannelBytesAppend(isOut, a, Eof);
    ChannelBytesAppend(isOut, a + [Eof], Close);
    assert a + [Eof] + [Close] == ms + [ExitStatusRequest(code), Eof, Close];
  }

  lemma StreamHasPrefix(s: State, isOut: bool, n: nat)
    requires StreamOk(s, isOut) && n <= |s.sent|
    ensures Bytes(isOut, s.sent[..n]) <= PipeOf(s, isOut).written
  {
    assert s.sent == s.sent[..n] + s.sent[n..];
    BytesSplit(isOut, s.sent[..n], s.sent[n..]);
  }

  lemma BridgeHasPrefix(s: State, isOut: bool)
    requires s.received <= |s.sent| && BridgeOk(s)
    ensures ChannelBytes(isOut, s.channel) == Bytes(isOut, s.sent[..s.received])
  {
    ChannelCarriesBytes(isOut, s.sent[..s.received]);
    if s.finished {
      assert s.sent[..s.received] == s.sent;
      ClosingAddsNoBytes(isOut, ChannelOf(s.sent), s.childExit.value);
    }
  }

  /** No piece of output on the channel is larger than a read of the child's pipe. */
  lemma {:induction false} PiecesAreSmall(ms: seq<Output>)
    requires AllBounded(ms)
    ensures forall i | 0 <= i < |ChannelOf(ms)| ::
              (ChannelOf(ms)[i].Data? || ChannelOf(ms)[i].ExtendedData?) && |ChannelOf(ms)[i].data| <= 8192
  {
    if ms != [] {
      PiecesAreSmall(ms[..|ms| - 1]);
    }
  }

  /** At every moment, the channel has received a prefix of what the child wrote, on each stream. */
  lemma ChannelIsPrefix(c: Codec<Output>, run: Run, isOut: bool)
    requires Suitable(c) && Legal(c, run)
    ensures var s := Final(c, run); ChannelBytes(isOut, s.channel) <= PipeOf(s, isOut).written
  {
    RunKeeps(c, run);
    var s := Final(c, run);
    BridgeHasPrefix(s, isOut);
    StreamHasPrefix(s, isOut, s.received);
  }

  /**
   * When the bridge is done, the channel has received exactly the child's output, on each stream and in
   * order, followed by one exit status, the child's, then EOF, then close.
   */
  lemma EndToEnd(c: Codec<Output>, run: Run)
    requires Suitable(c) && Legal(c, run) && Final(c, run).finished
    ensures
      var s := Final(c, run);
      && ChannelBytes(true, s.channel) == s.out.written && s.out.closed
      && ChannelBytes(false, s.channel) == s.err.written && s.err.closed
      && s.reported.Some?
      && |s.channel| >= 3 && s.channel[|s.channel| - 3..] == [ExitStatusRequest(s.reported.value), Eof, Close]
      && forall i | 0 <= i < |s.channel| - 3 :: (s.channel[i].Data? || s.channel[i].ExtendedData?) && |s.channel[i].data| <= 8192
  {
    RunKeeps(c, run);
    var s := Final(c, run);
    PiecesAreSmall(s.sent);
    forall isOut: bool ensures ChannelBytes(isOut, s.channel) == Bytes(isOut, s.sent) {
      ClosingAddsNoBytes(isOut, ChannelOf(s.sent), s.childExit.value);
      ChannelCarriesBytes(isOut, s.sent);
    }
    assert StreamOk(s, true) && StreamOk(s, false);
    assert Bytes(true, s.queue) == [] && Bytes(false, s.queue) == [];
  }

  lemma NothingFails(c: Codec<Output>, s: State)
    requires Suitable(c) && Inv(c, s)
    ensures !Enabled(c, s, BridgeFails)
    ensures Enabled(c, s, BridgeEnd) ==> s.received == |s.sent|
  {
    WhatEndsTheBridge(c, s);
  }

  /**
   * No schedule makes the bridge give up on a frame, or take a frame that is still being written for the
   * end of the stream.
   */
  lemma BridgeNeverFails(c: Codec<Output>, run: Run)
    requires Suitable(c) && Legal(c, run)
    ensures var s := Final(c, run);
            && !s.failed && !Enabled(c, s, BridgeFails)
            && (Enabled(c, s, BridgeEnd) ==> s.received == |s.sent|)
  {
    RunKeeps(c, run);
    NothingFails(c, Final(c, run));
  }

  // ---------------------------------------------------------------- progress

  /** The child has exited and nobody holds its output open. */
  predicate ChildGone(s: State) {
    s.out.closed && s.err.closed && s.reported.Some?
  }

  /** A frame is at most 1048580 bytes long; each of them may take a turn of its own to write. */
  lemma FramesAreBounded(c: Codec<Output>, m: Output)
    requires Suitable(c) && Bounded(m)
    ensures Writable(c, m) && |Frame(c, m)| <= 1048580
  {
    assert Small(c, m);
  }

  /** A byte that was not read makes at most one message, and a message takes a turn to forward and to bridge. */
  function PipeWork(p: Pipe): nat {
    1048583 * |p.unread| + if p.done then 0 else 1
  }

  /** A bound on the turns left once the child is gone. */
  function Work(s: State): nat {
    PipeWork(s.out) + PipeWork(s.err) + 1048582 * |s.queue| + |s.outbox| + Max(0, |s.sent| - s.received)
    + (if s.outputClosed then 0 else 1) + (if s.childExit.Some? then 0 else 1)
    + (match s.phase case Looping => 1048583 case ExitSent => 1 case Shut => 0)
    + (if s.finished then 0 else 1)
  }

  predicate OfChild(step: Step) {
    step.ChildWrites? || step.ChildCloses? || step.ExitReported?
  }

  lemma ReadingIsWork(c: Codec<Output>, s: State, step: Step, ofOut: bool)
    requires Enabled(c, s, step) && (step.ReadChunk? || step.ReadEof?) && step.ofOut == ofOut
    ensures Work(Apply(c, s, step)) < Work(s)
  {
    var p, p' := PipeOf(s, ofOut), PipeOf(Apply(c, s, step), ofOut);
    assert step.ReadChunk? ==> |p'.unread| == |p.unread| - step.n;
    assert PipeOf(Apply(c, s, step), !ofOut) == PipeOf(s, !ofOut);
  }

  /** Every turn of a task brings the end nearer. */
  lemma WorkDecreases(c: Codec<Output>, s: State, step: Step)
    requires Suitable(c) && Inv(c, s) && Enabled(c, s, step) && !OfChild(step)
    ensures Work(Apply(c, s, step)) < Work(s)
  {
    match step {
      case ReadChunk(ofOut, n) => ReadingIsWork(c, s, step, ofOut);
      case ReadEof(ofOut) => ReadingIsWork(c, s, step, ofOut);
      case ForwardOutput => FramesAreBounded(c, s.queue[0]);
      case NoticeOutputClosed =>
      case NoticeExit =>
      case SendExit => FramesAreBounded(c, ExitStatus(s.childExit.value));
      case WriteBytes(_) =>
      case Shutdown =>
      case BridgeMessage => BridgeMessageKeeps(c, s);
      case BridgeEnd =>
      case BridgeFails => WhatEndsTheBridge(c, s);
    }
  }

  /** Until the bridge is done, some task can take a turn: no schedule gets stuck. */
  lemma SomeStepIsEnabled(c: Codec<Output>, s: State) returns (step: Step)
    requires Suitable(c) && Inv(c, s) && ChildGone(s) && !s.finished
    ensures Enabled(c, s, step) && !OfChild(step)
  {
    if s.outbox != [] {
      step := WriteBytes(1);
    } else if Arrived(c, s) {
      BridgeFindsMessage(c, s);
      step := BridgeMessage;
    } else if s.phase.Shut? {
      BridgeFindsPart(c, s);
      step := BridgeEnd;
    } else if s.phase.ExitSent? {
      step := Shutdown;
    } else {
      step := SomeServiceStep(c, s);
    }
  }

  lemma SomeServiceStep(c: Codec<Output>, s: State) returns (step: Step)
    requires Suitable(c) && Inv(c, s) && ChildGone(s) && Selecting(s)
    ensures Enabled(c, s, step) && !OfChild(step)
  {
    if s.queue != [] && !s.outputClosed {
      FramesAreBounded(c, s.queue[0]);
      step := ForwardOutput;
    } else if !s.out.done {
      step := if s.out.unread == [] then ReadEof(true) else ReadChunk(true, 1);
    } else if !s.err.done {
      step := if s.err.unread == [] then ReadEof(false) else ReadChunk(false, 1);
    } else if !s.outputClosed {
      step := NoticeOutputClosed;
    } else if s.childExit.None? {
      step := NoticeExit;
    } else {
      FramesAreBounded(c, ExitStatus(s.childExit.value));
      step := SendExit;
    }
  }

  /** `later` is `earlier` and `k` more turns of the tasks. */
  predicate ContinuesBy(later: Run, earlier: Run, k: nat) {
    if k == 0 then later == earlier
    else later.Next? && !OfChild(later.step) && ContinuesBy(later.before, earlier, k - 1)
  }

  /** Every schedule ends: the tasks have no more turns than the work that was left. */
  lemma {:induction false} SchedulesEnd(c: Codec<Output>, later: Run, earlier: Run, k: nat)
    requires Suitable(c) && Legal(c, earlier) && Legal(c, later) && ContinuesBy(later, earlier, k)
    ensures k + Work(Final(c, later)) <= Work(Final(c, earlier))
  {
    if k > 0 {
      SchedulesEnd(c, later.before, earlier, k - 1);
      RunKeeps(c, later.before);
      WorkDecreases(c, Final(c, later.before), later.step);
    }
  }

  lemma SomeTurn(c: Codec<Output>, s: State) returns (step: Step)
    requires Suitable(c) && Inv(c, s) && ChildGone(s) && !s.finished
    ensures Enabled(c, s, step) && !OfChild(step) && ChildGone(Apply(c, s, step))
    ensures Work(Apply(c, s, step)) < Work(s)
  {
    step := SomeStepIsEnabled(c, s);
    WorkDecreases(c, s, step);
  }

  lemma NextTurn(c: Codec<Output>, run: Run) returns (step: Step)
    requires Suitable(c) && Legal(c, run) && ChildGone(Final(c, run)) && !Final(c, run).finished
    ensures !OfChild(step) && Legal(c, Next(run, step)) && ChildGone(Final(c, Next(run, step)))
    ensures Work(Final(c, Next(run, step))) < Work(Final(c, run))
  {
    RunKeeps(c, run);
    step := SomeTurn(c, Final(c, run));
  }

  /** Once the child is gone, every run goes on to the end of the bridge; it stops nowhere before. */
  lemma {:induction false} EveryRunCanFinish(c: Codec<Output>, run: Run) returns (later: Run, k: nat)
    requires Suitable(c) && Legal(c, run) && ChildGone(Final(c, run))
    ensures Legal(c, later) && Final(c, later).finished && ContinuesBy(later, run, k)
    decreases Work(Final(c, run))
  {
    if Final(c, run).finished {
      return run, 0;
    }
    var step := NextTurn(c, run);
    var rest;
    later, rest := EveryRunCanFinish(c, Next(run, step));
    k := rest + 1;
    OneTurnEarlier(later, run, step, rest);
  }

  lemma {:induction false} OneTurnEarlier(later: Run, run: Run, step: Step, k: nat)
    requires !OfChild(step) && ContinuesBy(later, Next(run, step), k)
    ensures ContinuesBy(later, run, k + 1)
  {
    if k > 0 {
      OneTurnEarlier(later.before, run, step, k - 1);
    }
  }

  // ---------------------------------------------------------------- a payload coding that fits

  function EncodeOutput(m: Output): seq<u8> {
    match m
    case Stdout(data) => [0] + data
    case Stderr(data) => [1] + data
    case ExitStatus(code) => [2] + EncodeU32(code)
  }

  function DecodeOutput(b: seq<u8>): Option<Output> {
    if b == [] then None
    else if b[0] == 0 then Some(Stdout(b[1..]))
    else if b[0] == 1 then Some(Stderr(b[1..]))
    else if b[0] == 2 && |b| == 5 && DecodeU32(b[1..]) < U32_LIMIT then Some(ExitStatus(DecodeU32(b[1..])))
    else None
  }

  const TAGGED: Codec<Output> := Codec(EncodeOutput, DecodeOutput)

  /** The results above are about something: a tag byte in front of the content is a suitable coding. */
  lemma TaggedIsSuitable()
    ensures Suitable(TAGGED)
  {
    forall m: Output ensures TAGGED.decode(TAGGED.encode(m)) == Some(m) {
      match m {
        case Stdout(data) => assert ([0] + data)[1..] == data;
        case Stderr(data) => assert ([1] + data)[1..] == data;
        case ExitStatus(code) =>
          assert ([2] + EncodeU32(code))[1..] == EncodeU32(code);
          U32RoundTrip(code);
      }
    }
  }
}
