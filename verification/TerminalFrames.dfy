/**
 * The framed terminal stream of the guest agent (guest-agent/src/terminal.rs):
 * the frame codec, and the two workers that move bytes to and from the
 * pseudo-terminal.
 */
module TerminalFrames {
  import opened Common

  const MAX_FRAME_PAYLOAD_BYTES := 1024 * 1024
  const READ_BUFFER := 8192

  datatype Frame = Frame(frameType: byte, payload: bytes)

  // ---------------------------------------------------------------- the codec

  /** Four bytes, most significant first. */
  function BigEndian(n: nat): bytes
    requires n < 0x1_0000_0000
  {
    [n / 0x1_000000, n / 0x1_0000 % 256, n / 0x1_00 % 256, n % 256]
  }

  function FromBigEndian(b: bytes): nat
    requires |b| == 4
  {
    var b0: int, b1: int, b2: int, b3: int := b[0], b[1], b[2], b[3];
    ((b0 * 256 + b1) * 256 + b2) * 256 + b3
  }

  function Encode(f: Frame): Result<bytes, string> {
    if |f.payload| > MAX_FRAME_PAYLOAD_BYTES then Err("frame payload exceeds limit")
    else Ok([f.frameType] + BigEndian(|f.payload|) + f.payload)
  }

  method EncodeFrame(frameType: byte, payload: bytes) returns (r: Result<bytes, string>)
    ensures r == Encode(Frame(frameType, payload))
  {
    if |payload| > MAX_FRAME_PAYLOAD_BYTES {
      return Err("frame payload exceeds limit");
    }
    var frame: bytes := [];
    frame := frame + [frameType];
    frame := frame + BigEndian(|payload|);
    frame := frame + payload;
    assert frame == [frameType] + BigEndian(|payload|) + payload;
    return Ok(frame);
  }

  function DecodeHeader(header: bytes): Result<(byte, nat), string>
    requires |header| == 5
  {
    var len := FromBigEndian(header[1..]);
    if len > MAX_FRAME_PAYLOAD_BYTES then Err("frame payload exceeds limit") else Ok((header[0], len))
  }

  /**
   * What reading a frame yields: the end of the stream (also inside a header), a
   * failure, or a frame and what follows.
   */
  datatype Read = EndOfStream | ReadFailed | Got(frame: Frame, rest: bytes)

  function ReadFrame(stream: bytes): Read {
    if |stream| < 5 then EndOfStream
    else
      match DecodeHeader(stream[..5])
      case Err(_) => ReadFailed
      case Ok((frameType, len)) =>
        if |stream| < 5 + len then ReadFailed else Got(Frame(frameType, stream[5..5 + len]), stream[5 + len..])
  }

  /** All frames up to the first that cannot be read, and how reading ended. */
  function ReadAll(stream: bytes): (seq<Frame>, Read)
    decreases |stream|
  {
    match ReadFrame(stream)
    case Got(f, rest) => var (frames, end) := ReadAll(rest); ([f] + frames, end)
    case end => ([], end)
  }

  lemma BigEndianRoundTrip(n: nat)
    requires n < 0x1_0000_0000
    ensures FromBigEndian(BigEndian(n)) == n
  {
    assert n / 0x1_00 == n / 0x1_0000 * 256 + n / 0x1_00 % 256;
    assert n / 0x1_0000 == n / 0x1_000000 * 256 + n / 0x1_0000 % 256;
  }

  lemma BigEndianUnique(b: bytes)
    requires |b| == 4
    ensures FromBigEndian(b) < 0x1_0000_0000 && BigEndian(FromBigEndian(b)) == b
  {
    var v := FromBigEndian(b);
    var b0: int, b1: int, b2: int, b3: int := b[0], b[1], b[2], b[3];
    LastByte((b0 * 256 + b1) * 256 + b2, b3);
    LastByte(b0 * 256 + b1, b2);
    LastByte(b0, b1);
    assert v / 0x1_0000 == v / 256 / 256 && v / 0x1_000000 == v / 256 / 256 / 256;
  }

  lemma LastByte(high: nat, low: byte)
    ensures (high * 256 + low) / 256 == high && (high * 256 + low) % 256 == low
  {
  }

  /** An encoded frame is read back, and nothing behind it is touched. */
  /**
   * A frame on the wire: the type, the length in four bytes, most significant first,
   * and the payload; at most 1 MiB.
   */
  lemma FrameLayout(f: Frame)
    ensures Encode(f).Ok? <==> |f.payload| <= 1048576
    ensures Encode(f).Ok? ==>
      var w: seq<int> := Encode(f).value;
      && |w| == 5 + |f.payload| && w[0] == f.frameType && w[5..] == f.payload
      && w[1] * 16777216 + w[2] * 65536 + w[3] * 256 + w[4] == |f.payload|
  {
    if Encode(f).Ok? {
      BigEndianRoundTrip(|f.payload|);
      var b := BigEndian(|f.payload|);
      var w := [f.frameType] + b + f.payload;
      assert w[1] == b[0] && w[2] == b[1] && w[3] == b[2] && w[4] == b[3];
    }
  }

  lemma EncodeThenRead(f: Frame, rest: bytes)
    requires |f.payload| <= MAX_FRAME_PAYLOAD_BYTES
    ensures ReadFrame(Encode(f).value + rest) == Got(f, rest)
  {
    var s := Encode(f).value + rest;
    BigEndianRoundTrip(|f.payload|);
    assert s[..5] == [f.frameType] + BigEndian(|f.payload|);
    assert s[..5][1..] == BigEndian(|f.payload|);
    assert s[5..5 + |f.payload|] == f.payload;
    assert s[5 + |f.payload|..] == rest;
  }

  /** A frame that is read is the only one that encodes to those bytes. */
  lemma ReadThenEncode(stream: bytes)
    requires ReadFrame(stream).Got?
    ensures var got := ReadFrame(stream); Encode(got.frame).Ok? && stream == Encode(got.frame).value + got.rest
  {
    var len := FromBigEndian(stream[..5][1..]);
    BigEndianUnique(stream[..5][1..]);
    assert stream == [stream[0]] + stream[..5][1..] + stream[5..5 + len] + stream[5 + len..];
  }

  function EncodeAll(frames: seq<Frame>): bytes
    requires forall f :: f in frames ==> |f.payload| <= MAX_FRAME_PAYLOAD_BYTES
  {
    if frames == [] then [] else Encode(frames[0]).value + EncodeAll(frames[1..])
  }

  /** Decoding the concatenation of any encoded frames returns the same frames and a clean end. */
  lemma {:induction false} DecodeConcatenation(frames: seq<Frame>)
    requires forall f :: f in frames ==> |f.payload| <= MAX_FRAME_PAYLOAD_BYTES
    ensures ReadAll(EncodeAll(frames)) == (frames, EndOfStream)
  {
    if frames != [] {
      EncodeThenRead(frames[0], EncodeAll(frames[1..]));
      DecodeConcatenation(frames[1..]);
      assert frames == [frames[0]] + frames[1..];
    }
  }

  // ---------------------------------------------------------------- the writer worker

  datatype Recv = Payload | Timeout | Disconnected

  datatype WriteResult = Wrote(n: nat) | WouldBlock | Interrupted | WriteFailed

  /** What the writer meets at one check: the flag, the next receive, and the next write. */
  datatype WriteMoment = WriteMoment(cancelled: bool, recv: Recv, write: WriteResult)

  /** The flag is only ever set. */
  ghost predicate OnceSet(env: seq<WriteMoment>) {
    forall i, j :: 0 <= i < j < |env| && env[i].cancelled ==> env[j].cancelled
  }

  lemma {:induction false} FlattenPrefix(parts: seq<bytes>, n: nat)
    requires n < |parts|
    ensures Flatten(parts[..n + 1]) == Flatten(parts[..n]) + parts[n]
    ensures Flatten(parts[..n]) + parts[n] <= Flatten(parts)
  {
    FlattenSnoc(parts[..n], parts[n]);
    assert parts[..n + 1] == parts[..n] + [parts[n]];
    FlattenTail(parts, n + 1);
  }

  lemma {:induction false} FlattenTail(parts: seq<bytes>, n: nat)
    requires n <= |parts|
    ensures Flatten(parts) == Flatten(parts[..n]) + Flatten(parts[n..])
  {
    if n == 0 {
      assert parts[..0] == [] && parts[0..] == parts;
    } else {
      FlattenTail(parts[1..], n - 1);
      assert parts[..n][1..] == parts[1..][..n - 1] && parts[n..] == parts[1..][n - 1..];
    }
  }

  /** At every check the session is open and there is a payload to receive or room to write. */
  ghost predicate Productive(env: seq<WriteMoment>) {
    forall i :: 0 <= i < |env| ==>
      !env[i].cancelled && env[i].recv == Payload && env[i].write.Wrote? && env[i].write.n > 0
  }

  /** How many bytes the terminal was ready to take before cancellation. */
  function Room(env: seq<WriteMoment>): nat {
    if env == [] then 0
    else
      var last := env[|env| - 1];
      Room(env[..|env| - 1]) + if !last.cancelled && last.write.Wrote? then last.write.n else 0
  }

  lemma RoomMore(env: seq<WriteMoment>, i: nat)
    requires i < |env|
    ensures Room(env[..i + 1]) == Room(env[..i]) + if !env[i].cancelled
        && env[i].write.Wrote? then env[i].write.n else 0
  {
    assert env[..i + 1][..i] == env[..i];
  }

  lemma {:induction false} RoomPrefix(env: seq<WriteMoment>, i: nat)
    requires i <= |env|
    ensures Room(env[..i]) <= Room(env)
    decreases |env| - i
  {
    if i < |env| {
      RoomPrefix(env, i + 1);
      RoomMore(env, i);
    } else {
      assert env[..i] == env;
    }
  }

  /**
   * The loop that writes queued input. At whatever moment it is looked at, and
   * however the terminal splits or refuses the writes, the terminal has received
   * a prefix of the concatenated payloads; and however small the pieces, as long
   * as something can be received or written at each check, all of it gets there
   * within one check per payload and one per byte. Nothing is written beyond what
   * the terminal was ready to take, and nothing after cancellation.
   */
  method WritePtyInput(queue: seq<bytes>, env: seq<WriteMoment>) returns (written: bytes)
    requires OnceSet(env)
    ensures written <= Flatten(queue)
    ensures Productive(env) && |env| >= |queue| + |Flatten(queue)| ==> written == Flatten(queue)
    ensures |written| <= Room(env)
  {
    hide Room;
    written := [];
    var next, i := 0, 0;
    RoomPrefix(env, 0);
    while i < |env|
      invariant next <= |queue| && i <= |env|
      invariant written <= Flatten(queue)
      invariant i < |env| && !env[i].cancelled ==> written == Flatten(queue[..next])
      invariant Productive(env) ==> i <= next + |written|
      invariant |written| <= Room(env[..i])
      decreases |env| - i
    {
      RoomMore(env, i);
      RoomPrefix(env, i);
      var moment := env[i];
      i := i + 1;
      if moment.cancelled || moment.recv == Disconnected {
        break;
      }
      if moment.recv == Payload {
        if next == |queue| {
          assert queue[..next] == queue;
          break;
        }
        written, i := WritePayload(queue, next, written, env, i);
        next := next + 1;
        if i == |env| + 1 {
          return;
        }
      }
    }
    RoomPrefix(env, i);
  }

  /**
   * The inner loop on one payload, from check `from` on. It returns the check at
   * which the outer loop goes on, or one past the end when the worker returned.
   * A payload that is not written to the end is dropped, but then the flag is set
   * and the outer loop sees it too.
   */
  method WritePayload(queue: seq<bytes>, next: nat, before: bytes, env: seq<WriteMoment>, from: nat)
    returns (written: bytes, i: nat)
    requires OnceSet(env) && next < |queue| && from <= |env| && before == Flatten(queue[..next])
    requires |before| <= Room(env[..from])
    ensures from <= i <= |env| + 1 && before <= written <= Flatten(queue)
    ensures i < |env| && !env[i].cancelled ==> written == Flatten(queue[..next + 1])
    ensures Productive(env) ==> i <= |env| && i - from <= |written| - |before|
    ensures |written| <= Room(env) && (i <= |env| ==> |written| <= Room(env[..i]))
  {
    hide Room;
    FlattenPrefix(queue, next);
    written, i := before, from;
    var remaining := queue[next];
    while remaining != [] && i < |env|
      invariant from <= i <= |env|
      invariant before <= written && written + remaining == before + queue[next]
      invariant Productive(env) ==> i - from <= |written| - |before|
      invariant |written| <= Room(env[..i])
      decreases |env| - i
    {
      assert written <= written + remaining;
      RoomMore(env, i);
      RoomPrefix(env, i);
      RoomPrefix(env, i + 1);
      var moment := env[i];
      i := i + 1;
      if moment.cancelled {
        return;
      }
      var w := moment.write;
      if w == WriteFailed || w == Wrote(0) {
        return written, |env| + 1;
      }
      if w.Wrote? {
        var n := if w.n <= |remaining| then w.n else |remaining|;
        assert remaining == remaining[..n] + remaining[n..];
        written := written + remaining[..n];
        remaining := remaining[n..];
      }
    }
    assert written <= written + remaining;
    RoomPrefix(env, i);
  }

  // ---------------------------------------------------------------- the reader worker

  datatype ReadResult = Bytes(data: bytes) | ReadWouldBlock | ReadInterrupted | ReadError

  /** The flag as loaded at the top of the loop, what the read returned, and the flag when the frame is sent. */
  datatype ReadMoment = ReadMoment(cancelledBefore: bool, read: ReadResult, cancelledAfter: bool, channelOpen: bool)

  /** A forwarded frame and whether the session had been cancelled by then. */
  datatype Sent = Sent(data: bytes, afterCancel: bool)

  function AfterCancel(sent: seq<Sent>): nat {
    if sent == [] then 0
    else AfterCancel(sent[..|sent| - 1]) + if sent[|sent| - 1].afterCancel then |sent[|sent| - 1].data| else 0
  }

  /** The bytes of all forwarded frames. */
  function Forwarded(sent: seq<Sent>): bytes {
    if sent == [] then [] else Forwarded(sent[..|sent| - 1]) + sent[|sent| - 1].data
  }

  /** The bytes of all reads. */
  function Offered(env: seq<ReadMoment>): bytes {
    if env == [] then []
    else
      var last := env[|env| - 1].read;
      Offered(env[..|env| - 1]) + if last.Bytes? then last.data else []
  }

  /** The session is open throughout, the terminal has no end and no error. */
  ghost predicate Undisturbed(env: seq<ReadMoment>) {
    forall i :: 0 <= i < |env| ==>
      !env[i].cancelledAfter && env[i].channelOpen && env[i].read != Bytes([]) && env[i].read != ReadError
  }

  lemma NothingSent()
    ensures AfterCancel([]) == 0 && Forwarded([]) == [] && Offered([]) == []
  {
  }

  lemma SentMore(sent: seq<Sent>, x: Sent)
    ensures AfterCancel(sent + [x]) == AfterCancel(sent) + if x.afterCancel then |x.data| else 0
    ensures Forwarded(sent + [x]) == Forwarded(sent) + x.data
  {
    assert (sent + [x])[..|sent|] == sent;
  }

  lemma OfferedMore(env: seq<ReadMoment>, i: nat)
    requires i < |env|
    ensures Offered(env[..i + 1]) == Offered(env[..i]) + if env[i].read.Bytes? then env[i].read.data else []
  {
    assert env[..i + 1][..i] == env[..i];
  }

  /** The terminal is at its end, or failing, or nobody takes what it offers. */
  predicate Ends(m: ReadMoment) {
    m.read == Bytes([]) || m.read == ReadError || (m.read.Bytes? && !m.channelOpen)
  }

  lemma {:induction false} OfferedGrows(env: seq<ReadMoment>, a: nat, b: nat)
    requires a <= b <= |env|
    ensures Offered(env[..a]) <= Offered(env[..b])
    decreases b - a
  {
    if a < b {
      OfferedGrows(env, a, b - 1);
      OfferedMore(env, b - 1);
    }
  }

  lemma {:induction false} OfferedPrefix(env: seq<ReadMoment>, n: nat)
    requires n <= |env|
    ensures Offered(env[..n]) <= Offered(env)
    decreases |env| - n
  {
    if n < |env| {
      OfferedPrefix(env, n + 1);
      assert env[..n + 1][..n] == env[..n];
      assert Offered(env[..n]) <= Offered(env[..n + 1]);
    } else {
      assert env[..n] == env;
    }
  }

  ghost predicate ReadOnceSet(env: seq<ReadMoment>) {
    && (forall i :: 0 <= i < |env| && env[i].cancelledBefore ==> env[i].cancelledAfter)
    && (forall i, j :: 0 <= i < j < |env| && env[i].cancelledAfter ==> env[j].cancelledBefore)
  }

  /**
   * The loop that forwards output. What it forwards is what the terminal offered,
   * in order and from the start, all of it as long as nothing goes wrong; after
   * cancellation it forwards at most one maximum frame and two read buffers,
   * however much the terminal offers.
   */
  method ReadPtyOutput(env: seq<ReadMoment>) returns (sent: seq<Sent>)
    requires ReadOnceSet(env)
    requires forall i :: 0 <= i < |env| && env[i].read.Bytes? ==> |env[i].read.data| <= READ_BUFFER
    ensures AfterCancel(sent) <= MAX_FRAME_PAYLOAD_BYTES + 2 * READ_BUFFER
    ensures Forwarded(sent) <= Offered(env)
    ensures Undisturbed(env) ==> Forwarded(sent) == Offered(env)
    ensures forall k :: 0 <= k < |env| && Ends(env[k]) ==> Forwarded(sent) <= Offered(env[..k])
    ensures forall k :: 0 <= k < |sent| ==> sent[k].data != []
  {
    hide AfterCancel;
    hide Forwarded;
    hide Offered;
    NothingSent();
    sent := [];
    assert env[..0] == [];
    var drainRemaining := MAX_FRAME_PAYLOAD_BYTES;
    for i := 0 to |env|
      invariant 0 <= drainRemaining <= MAX_FRAME_PAYLOAD_BYTES
      invariant (i == 0 || !env[i - 1].cancelledAfter) ==>
          AfterCancel(sent) == 0 && drainRemaining == MAX_FRAME_PAYLOAD_BYTES
      invariant drainRemaining > 0 ==> AfterCancel(sent) <= READ_BUFFER + (MAX_FRAME_PAYLOAD_BYTES - drainRemaining)
      invariant AfterCancel(sent) <= MAX_FRAME_PAYLOAD_BYTES + 2 * READ_BUFFER
      invariant Forwarded(sent) == Offered(env[..i])
      invariant forall k :: 0 <= k < i ==> !Ends(env[k])
      invariant forall k :: 0 <= k < |sent| ==> sent[k].data != []
    {
      OfferedPrefix(env, i);
      OfferedMore(env, i);
      forall k | i <= k < |env| ensures Offered(env[..i]) <= Offered(env[..k]) {
        OfferedGrows(env, i, k);
      }
      var draining := env[i].cancelledBefore;
      if draining && drainRemaining == 0 {
        return;
      }
      match env[i].read {
        case Bytes(data) =>
          if data == [] {
            return;
          }
          if draining {
            drainRemaining := if |data| <= drainRemaining then drainRemaining - |data| else 0;
          }
          if !env[i].channelOpen {
            return;
          }
          SentMore(sent, Sent(data, env[i].cancelledAfter));
          sent := sent + [Sent(data, env[i].cancelledAfter)];
        case ReadInterrupted =>
        case ReadWouldBlock =>
          if env[i].cancelledAfter {
            return;
          }
        case ReadError =>
          return;
      }
    }
    assert env[..|env|] == env;
  }
}
