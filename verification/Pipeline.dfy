/** From messages to chunks and back, and the two readers of one stream: the client's buffer and the capture filter. */
module Pipeline {
  import opened Wrappers
  import opened Bytes
  import opened Gfdi
  import opened FrameStream
  import opened FrameOnWire
  import opened StreamBuffers
  import opened Multilink
  import opened CaptureSpec
  import opened CaptureTheorems
  import Cobs

  datatype Message = Message(msgType: Word, payload: seq<Byte>)

  function Encoded(m: Message): seq<Byte> { Cobs.Encode(BuildFrame(m.msgType, m.payload)) }

  function EncodedAll(ms: seq<Message>): (r: seq<seq<Byte>>)
    ensures |r| == |ms|
  {
    seq(|ms|, i requires 0 <= i < |ms| => Encoded(ms[i]))
  }

  /** The chunks of the messages, each message wrapped and chunked on its own, as they are sent. */
  function SentChunks(ms: seq<Message>, handle: Byte, mtu: nat): seq<seq<Byte>> {
    if ms == [] then []
    else
      var m := ms[|ms| - 1];
      SentChunks(ms[..|ms| - 1], handle, mtu) + ChunkWithHandle(WrapCobs(BuildFrame(m.msgType, m.payload)), handle, mtu)
  }

  lemma EncodedWrappable(ms: seq<Message>)
    ensures Wrappable(EncodedAll(ms))
  {
    forall i | 0 <= i < |ms| ensures EncodedAll(ms)[i] != [] && NoZero(EncodedAll(ms)[i]) {
      EncodedBuilt(ms[i].msgType, ms[i].payload);
    }
  }

  lemma BodiesAppend(a: seq<seq<Byte>>, b: seq<seq<Byte>>)
    ensures Bodies(a + b) == Bodies(a) + Bodies(b)
  {}

  lemma WrapIsPush(s: seq<Byte>, f: seq<Byte>)
    ensures s + WrapCobs(f) == Push(s, Cobs.Encode(f))
  {}

  /** Stripped of their handles, the chunks sent for any MTU of at least 2 are the wrapped messages, in order. */
  lemma {:induction false} SentChunksCarryMessages(ms: seq<Message>, handle: Byte, mtu: nat)
    requires mtu >= 2
    ensures var chunks := SentChunks(ms, handle, mtu);
      && Flatten(Bodies(chunks)) == Wire([], EncodedAll(ms))
      && forall i :: 0 <= i < |chunks| ==> StripHandle(chunks[i], handle) == Some(Body(chunks[i]))
  {
    if ms != [] {
      var n := |ms| - 1;
      var f := BuildFrame(ms[n].msgType, ms[n].payload);
      var before, last := SentChunks(ms[..n], handle, mtu), ChunkWithHandle(WrapCobs(f), handle, mtu);
      SentChunksCarryMessages(ms[..n], handle, mtu);
      ChunksCarryData(WrapCobs(f), handle, mtu);
      ChunksJoin(before, last, handle);
      WrapIsPush(Wire([], EncodedAll(ms[..n])), f);
      assert EncodedAll(ms)[..n] == EncodedAll(ms[..n]);
    }
  }

  /** Chunks for one handle, followed by more for the same. */
  lemma ChunksJoin(a: seq<seq<Byte>>, b: seq<seq<Byte>>, handle: Byte)
    requires forall i :: 0 <= i < |a| ==> StripHandle(a[i], handle) == Some(Body(a[i]))
    requires forall i :: 0 <= i < |b| ==> StripHandle(b[i], handle) == Some(Body(b[i]))
    ensures Flatten(Bodies(a + b)) == Flatten(Bodies(a)) + Flatten(Bodies(b))
    ensures forall i :: 0 <= i < |a + b| ==> StripHandle((a + b)[i], handle) == Some(Body((a + b)[i]))
  {
    BodiesAppend(a, b);
    FlattenAppend(Bodies(a), Bodies(b));
  }

  // ----- Delivery -----

  /** The data appended to the buffer, append by append. */
  function Appended(ops: seq<BufOp>): seq<seq<Byte>> {
    if ops == [] then []
    else
      var before := Appended(ops[..|ops| - 1]);
      match ops[|ops| - 1]
      case Extend(data) => before + [data]
      case Next => before
  }

  lemma {:induction false} StreamIsAppended(ops: seq<BufOp>)
    ensures Stream(ops) == Flatten(Appended(ops))
  {
    if ops != [] {
      StreamIsAppended(ops[..|ops| - 1]);
    }
  }

  /** The receiver appended the bodies of these chunks, asked for frames whenever it liked, and found none left. */
  predicate Drained(ops: seq<BufOp>, chunks: seq<seq<Byte>>) {
    && Appended(ops) == Bodies(chunks)
    && !RunOps(ops).overflowed
    && NextOf(RunOps(ops).buf).0 == None
  }

  function ParseAll(frames: seq<seq<Byte>>): (r: seq<Result<GfdiFrame, Error>>)
    ensures |r| == |frames|
  {
    seq(|frames|, i requires 0 <= i < |frames| => ParseCobsFrame(frames[i]))
  }

  lemma DrainedFrames(ops: seq<BufOp>, chunks: seq<seq<Byte>>)
    requires Drained(ops, chunks)
    ensures RunOps(ops).frames == AllFrames(Flatten(Bodies(chunks)))
  {
    StreamIsAppended(ops);
    ChunkingIndependent(ops);
  }

  lemma FramesOfWire(es: seq<seq<Byte>>)
    requires Wrappable(es)
    ensures AllFrames(Wire([], es)) == es
  {
    EvenPrefixSeesAll([], es);
    assert AllFrames([]) + es == es;
  }

  lemma AllFramesOfWire(ms: seq<Message>)
    ensures AllFrames(Wire([], EncodedAll(ms))) == EncodedAll(ms)
  {
    EncodedWrappable(ms);
    FramesOfWire(EncodedAll(ms));
  }

  /** Any messages, any handle, any MTU of at least 2, any interleaving: one result a message, in order. */
  lemma PipelineDelivers(ms: seq<Message>, handle: Byte, mtu: nat, ops: seq<BufOp>)
    requires mtu >= 2 && Drained(ops, SentChunks(ms, handle, mtu))
    ensures RunOps(ops).frames == EncodedAll(ms)
    ensures var r := ParseAll(RunOps(ops).frames);
      |r| == |ms| && forall i :: 0 <= i < |ms| ==> r[i] == Received(ms[i].msgType, ms[i].payload)
  {
    SentChunksCarryMessages(ms, handle, mtu);
    DrainedFrames(ops, SentChunks(ms, handle, mtu));
    AllFramesOfWire(ms);
    ResultsOf(ms);
  }

  lemma ResultsOf(ms: seq<Message>)
    ensures var r := ParseAll(EncodedAll(ms));
      |r| == |ms| && forall i :: 0 <= i < |ms| ==> r[i] == Received(ms[i].msgType, ms[i].payload)
  {}

  /** The messages arrive with their types and payloads exactly when every one of them is faithful. */
  lemma PipelineRoundTrip(ms: seq<Message>, handle: Byte, mtu: nat, ops: seq<BufOp>)
    requires mtu >= 2 && Drained(ops, SentChunks(ms, handle, mtu))
    ensures var r := ParseAll(RunOps(ops).frames);
      && |r| == |ms|
      && ((forall i :: 0 <= i < |ms| ==> r[i] == Ok(GfdiFrame(ms[i].msgType, None, ms[i].payload))) <==>
          forall i :: 0 <= i < |ms| ==> Faithful(ms[i].msgType, ms[i].payload))
  {
    PipelineDelivers(ms, handle, mtu, ops);
    var r := ParseAll(RunOps(ops).frames);
    forall i | 0 <= i < |ms|
      ensures r[i] == Ok(GfdiFrame(ms[i].msgType, None, ms[i].payload)) <==> Faithful(ms[i].msgType, ms[i].payload)
    {
      ReceivedExactly(ms[i].msgType, ms[i].payload);
    }
  }

  /** Stray bytes with an odd number of zeros in front of the messages silence all of them. */
  lemma StrayZeroSilences(prefix: seq<Byte>, ms: seq<Message>, ops: seq<BufOp>)
    requires |Zeros(prefix)| % 2 == 1 && ms != []
    requires Stream(ops) == Wire(prefix, EncodedAll(ms)) && !RunOps(ops).overflowed
    ensures RunOps(ops).frames <= AllFrames(prefix + [0])
    ensures |AllFrames(prefix + [0])| <= |Zeros(prefix)| / 2 + 1
  {
    ChunkingIndependent(ops);
    AllFramesOfSilenced(prefix, ms);
    FramesBeforeSilence(prefix);
  }

  lemma OneZero()
    ensures |Zeros([0])| == 1 && AllFrames([0]) == []
  {
    ZerosPush([], 0);
    assert [] + [0] == [0];
  }

  lemma TwoZeros()
    ensures AllFrames([0] + [0]) == []
  {
    OneZero();
    EmptySegment([0]);
  }

  /** A single stray zero is enough, as long as the buffer does not overflow: nothing is ever handed out. */
  lemma LoneZeroSilences(ms: seq<Message>, ops: seq<BufOp>)
    requires ms != [] && Stream(ops) == Wire([0], EncodedAll(ms)) && !RunOps(ops).overflowed
    ensures RunOps(ops).frames == []
  {
    OneZero();
    TwoZeros();
    StrayZeroSilences([0], ms, ops);
  }

  lemma AllFramesOfSilenced(prefix: seq<Byte>, ms: seq<Message>)
    requires |Zeros(prefix)| % 2 == 1 && ms != []
    ensures AllFrames(Wire(prefix, EncodedAll(ms))) == AllFrames(prefix + [0])
  {
    EncodedWrappable(ms);
    OddPrefixSeesNone(prefix, EncodedAll(ms));
  }

  lemma FramesBeforeSilence(prefix: seq<Byte>)
    requires |Zeros(prefix)| % 2 == 1
    ensures |AllFrames(prefix + [0])| <= |Zeros(prefix)| / 2 + 1
  {
    OneMoreZero(prefix);
    AllFramesCount(prefix + [0], |Zeros(prefix)| / 2 + 1);
  }

  lemma AllFramesCount(t: seq<Byte>, p: nat)
    requires |Zeros(t)| == 2 * p
    ensures |AllFrames(t)| <= p
  {
    FramesCount(t, p);
  }

  lemma {:induction false} FramesCount(s: seq<Byte>, p: nat)
    requires 2 * p <= |Zeros(s)|
    ensures |Frames(s, p)| <= p
  {
    if p > 0 {
      FramesCount(s, p - 1);
    }
  }

  // ----- Capture of what is sent -----

  lemma {:induction false} WireAfter(s: seq<Byte>, es: seq<seq<Byte>>)
    ensures Wire(s, es) == s + Wire([], es)
  {
    if es == [] {
      assert s + [] == s;
    } else {
      var n := |es| - 1;
      WireAfter(s, es[..n]);
      PushAfter(s, Wire([], es[..n]), es[n]);
    }
  }

  lemma PushAfter(s: seq<Byte>, t: seq<Byte>, e: seq<Byte>)
    ensures Push(s + t, e) == s + Push(t, e)
  {}

  lemma {:induction false} WireSplit(es: seq<seq<Byte>>, j: nat)
    requires j <= |es|
    ensures Wire([], es) == Wire(Wire([], es[..j]), es[j..])
    decreases |es|
  {
    if j == |es| {
      assert es[..j] == es;
    } else {
      var n := |es| - 1;
      WireSplit(es[..n], j);
      assert es[..n][..j] == es[..j] && es[..n][j..] == es[j..][..n - j];
      assert es[j..][n - j] == es[n];
    }
  }

  lemma WireAround(es: seq<seq<Byte>>, j: nat) returns (w: seq<Byte>)
    requires j < |es|
    ensures Wire([], es) == Push(Wire([], es[..j]), es[j]) + w
  {
    WireSplit(es, j + 1);
    assert es[..j + 1][..j] == es[..j];
    w := Wire([], es[j + 1..]);
    WireAfter(Wire([], es[..j + 1]), es[j + 1..]);
  }

  /**
    A capture of any messages sent in chunks of any MTU of at least 2: no released chunk touches the bytes or the
    closing delimiter of message `j` if that message carries identity.
   */
  lemma SentIdentityNeverReleased(ms: seq<Message>, handle: Byte, mtu: nat, j: nat)
    requires mtu >= 2 && j < |ms| && GfdiFrame(ms[j].msgType, None, ms[j].payload).CarriesIdentity()
    ensures var first := |Wire([], EncodedAll(ms[..j]))| + 1;
      Untouched(Bodies(SentChunks(ms, handle, mtu)), first, first + |Encoded(ms[j])|)
  {
    var bodies, u := Bodies(SentChunks(ms, handle, mtu)), Wire([], EncodedAll(ms[..j]));
    SentChunksCarryMessages(ms, handle, mtu);
    var w := WireAroundMessage(ms, j);
    IdentityUntouched(bodies, u, ms[j], w);
  }

  lemma WireAroundMessage(ms: seq<Message>, j: nat) returns (w: seq<Byte>)
    requires j < |ms|
    ensures Wire([], EncodedAll(ms)) ==
      Wire([], EncodedAll(ms[..j])) + WrapCobs(BuildFrame(ms[j].msgType, ms[j].payload)) + w
  {
    w := WireAround(EncodedAll(ms), j);
    assert EncodedAll(ms)[..j] == EncodedAll(ms[..j]);
    WrapIsPush(Wire([], EncodedAll(ms[..j])), BuildFrame(ms[j].msgType, ms[j].payload));
  }

  lemma IdentityUntouched(bodies: seq<seq<Byte>>, u: seq<Byte>, m: Message, w: seq<Byte>)
    requires GfdiFrame(m.msgType, None, m.payload).CarriesIdentity()
    requires Flatten(bodies) == u + WrapCobs(BuildFrame(m.msgType, m.payload)) + w
    ensures Untouched(bodies, |u| + 1, |u| + 1 + |Encoded(m)|)
  {
    forall k | 0 <= k < |bodies| && k in Keepable(bodies)
      ensures ChunkStart(bodies, k) + |bodies[k]| <= |u| + 1 || |u| + 1 + |Encoded(m)| < ChunkStart(bodies, k)
    {
      IdentityNeverReleased(bodies, u, m.msgType, m.payload, w, k);
    }
  }

  /** No released chunk touches `[first, closing]`. */
  predicate Untouched(bodies: seq<seq<Byte>>, first: nat, closing: nat) {
    forall k :: 0 <= k < |bodies| && k in Keepable(bodies) ==>
      ChunkStart(bodies, k) + |bodies[k]| <= first || closing < ChunkStart(bodies, k)
  }

  // ----- Two readers of one stream -----

  /** What was appended since the buffer last overflowed. */
  function Since(ops: seq<BufOp>): seq<Byte> {
    if ops == [] then []
    else
      var before := ops[..|ops| - 1];
      match ops[|ops| - 1]
      case Extend(data) =>
        if |RunOps(before).buf| + |data| > STREAM_BUFFER_MAX then [] else Since(before) + data
      case Next => Since(before)
  }

  /** That is the end of the stream. */
  lemma {:induction false} SinceIsSuffix(ops: seq<BufOp>) returns (u: seq<Byte>)
    ensures Stream(ops) == u + Since(ops)
  {
    if ops == [] {
      u := [];
    } else {
      u := SinceIsSuffix(ops[..|ops| - 1]);
      match ops[|ops| - 1]
      case Extend(data) =>
        if Since(ops) == [] {
          u := Stream(ops);
        } else {
          assert u + Since(ops[..|ops| - 1]) + data == u + (Since(ops[..|ops| - 1]) + data);
        }
      case Next =>
    }
  }

  /** Overflow or not, the buffer is what follows an even number of zeros of that. */
  lemma {:induction false} BufferFollowsSince(ops: seq<BufOp>) returns (p: nat)
    ensures 2 * p <= |Zeros(Since(ops))| && RunOps(ops).buf == Rest(Since(ops), p)
  {
    if ops == [] {
      p := 0;
    } else {
      var before := ops[..|ops| - 1];
      p := BufferFollowsSince(before);
      match ops[|ops| - 1]
      case Extend(data) =>
        if |RunOps(before).buf| + |data| > STREAM_BUFFER_MAX {
          p := 0;
        } else {
          RestAppend(Since(before), data, p);
        }
      case Next => p := NextOfStream(Since(before), p);
    }
  }

  /** A run that does not start its stream is the same run, closed by the same zero, behind anything else. */
  lemma ClosedBehind(u: seq<Byte>, s: seq<Byte>, t: seq<Byte>, i: nat, frame: seq<Byte>) returns (k: nat)
    requires t == u + s && i < |s| && Closes(s, i) && RunAt(s, i) == frame && RunBefore(s, i) < i
    ensures k == |u| + i < |t| && Closes(t, k) && RunAt(t, k) == frame
  {
    var n := RunBefore(s, i);
    k := |u| + i;
    RunBeforeIsRun(s, i);
    RunBeforeUnique(t, k, n);
    assert t[k - n..k] == s[i - n..i];
  }

  lemma ClosedBefore(s: seq<Byte>, t: seq<Byte>, i: nat)
    requires i < |s| && Closes(s, i)
    ensures Closes(s + t, i) && RunAt(s + t, i) == RunAt(s, i)
  {
    CloseStable(s, t, i);
    StartStable(s, t, i);
    SliceAppend(s, t, i - RunBefore(s, i), i);
  }

  /** The last frame of a stream's first pairs is a run that a zero closes, and does not start the stream. */
  lemma LastFrameIsRun(s: seq<Byte>, q: nat, before: seq<seq<Byte>>, frame: seq<Byte>) returns (i: nat)
    requires 2 * q <= |Zeros(s)| && Frames(s, q) == before + [frame]
    ensures i < |s| && Closes(s, i) && RunAt(s, i) == frame && RunBefore(s, i) < i
  {
    i := FramesAreClosedRuns(s, q, |before|);
  }

  lemma NextIsRun(s: seq<Byte>, p: nat, buf: seq<Byte>, frame: seq<Byte>) returns (i: nat)
    requires 2 * p <= |Zeros(s)| && buf == Rest(s, p) && NextOf(buf).0 == Some(frame)
    ensures i < |s| && Closes(s, i) && RunAt(s, i) == frame && RunBefore(s, i) < i
  {
    var q := NextOfStream(s, p);
    i := LastFrameIsRun(s, q, Frames(s, p), frame);
  }

  /** The frame a request for one hands out is a run that a zero of the stream closes. */
  lemma HandedOut(before: seq<BufOp>, frame: seq<Byte>) returns (i: nat)
    requires NextOf(RunOps(before).buf).0 == Some(frame)
    ensures i < |Stream(before)| && Closes(Stream(before), i) && RunAt(Stream(before), i) == frame
  {
    var u := SinceIsSuffix(before);
    var p := BufferFollowsSince(before);
    var k := NextIsRun(Since(before), p, RunOps(before).buf, frame);
    i := ClosedBehind(u, Since(before), Stream(before), k, frame);
  }

  /** Every frame handed out is such a run, whatever overflowed before or after. */
  lemma {:induction false} FrameIsClosedRun(ops: seq<BufOp>, j: nat) returns (i: nat)
    requires j < |RunOps(ops).frames|
    ensures i < |Stream(ops)| && Closes(Stream(ops), i) && RunAt(Stream(ops), i) == RunOps(ops).frames[j]
  {
    var before := ops[..|ops| - 1];
    if j < |RunOps(before).frames| {
      i := FrameIsClosedRun(before, j);
      match ops[|ops| - 1]
      case Extend(data) => ClosedBefore(Stream(before), data, i);
      case Next =>
    } else {
      i := HandedOut(before, RunOps(ops).frames[j]);
    }
  }

  /**
    Every frame the client can extract is one the filter closes and judges, even if the client's buffer overflows; so
    if the client reads identity out of a frame, or cannot parse it, no released chunk has a byte of it.
   */
  lemma ReadersAgree(bodies: seq<seq<Byte>>, ops: seq<BufOp>, j: nat) returns (i: nat)
    requires Appended(ops) == bodies && j < |RunOps(ops).frames|
    ensures i < |Flatten(bodies)| && Closes(Flatten(bodies), i) && RunAt(Flatten(bodies), i) == RunOps(ops).frames[j]
    ensures FrameExcluded(RunOps(ops).frames[j]) ==> Untouched(bodies, Start(Flatten(bodies), i), i)
  {
    StreamIsAppended(ops);
    i := FrameIsClosedRun(ops, j);
    if FrameExcluded(RunOps(ops).frames[j]) {
      ExcludedUntouched(bodies, i);
    }
  }

  /** No released chunk touches an excluded frame of the stream. */
  lemma ExcludedUntouched(bodies: seq<seq<Byte>>, i: nat)
    requires i < |Flatten(bodies)| && Closes(Flatten(bodies), i) && FrameExcluded(RunAt(Flatten(bodies), i))
    ensures Untouched(bodies, Start(Flatten(bodies), i), i)
  {
    ReleasedInOrder(bodies);
    forall k | 0 <= k < |bodies| && k in Keepable(bodies)
      ensures ChunkStart(bodies, k) + |bodies[k]| <= Start(Flatten(bodies), i) || i < ChunkStart(bodies, k)
    {
      ExcludedNeverReleased(bodies, i, k);
      OneChunk(bodies, k);
    }
  }

  lemma {:induction false} ClosedRunsAppend(s: seq<Byte>, t: seq<Byte>, n: nat)
    requires n <= |s|
    ensures ClosedRuns(s + t, n) == ClosedRuns(s, n)
  {
    if n > 0 {
      ClosedRunsAppend(s, t, n - 1);
      CloseStable(s, t, n - 1);
      StartStable(s, t, n - 1);
      SliceAppend(s, t, Start(s, n - 1), n - 1);
    }
  }

  lemma ClosedRunsPush(s: seq<Byte>, b: Byte)
    ensures ClosedRuns(s + [b], |s| + 1) ==
      ClosedRuns(s, |s|) + (if Closes(s + [b], |s|) then [RunAt(s + [b], |s|)] else [])
  {
    ClosedRunsAppend(s, [b], |s|);
  }

  lemma {:induction false} ClosedRunsNonzero(s: seq<Byte>, e: seq<Byte>)
    requires NoZero(e)
    ensures ClosedRuns(s + e, |s + e|) == ClosedRuns(s, |s|)
  {
    if e == [] {
      assert s + e == s;
    } else {
      var n := |e| - 1;
      ClosedRunsNonzero(s, e[..n]);
      ClosedRunsPush(s + e[..n], e[n]);
      assert s + e == (s + e[..n]) + [e[n]];
    }
  }

  /** At a fresh start or after a zero, a zero closes nothing. */
  lemma ClosedRunsIdle(s: seq<Byte>)
    requires s == [] || s[|s| - 1] == 0
    ensures ClosedRuns(s + [0], |s| + 1) == ClosedRuns(s, |s|)
  {
    ClosedRunsPush(s, 0);
    StartStable(s, [0], |s|);
    assert ClosedRuns(s, |s|) + [] == ClosedRuns(s, |s|);
  }

  lemma ClosedRunsClosed(s: seq<Byte>, e: seq<Byte>)
    requires e != [] && NoZero(e)
    ensures ClosedRuns(Push(s, e), |Push(s, e)|) == ClosedRuns(s + [0] + e, |s + [0] + e|) + [e]
  {
    var v := s + [0] + e;
    ClosedRunsPush(v, 0);
    LastRun(s, e, v);
  }

  lemma LastRun(s: seq<Byte>, e: seq<Byte>, v: seq<Byte>)
    requires e != [] && NoZero(e) && v == s + [0] + e
    ensures Closes(v + [0], |v|) && RunAt(v + [0], |v|) == e
  {
    DelimitedRun(s, e, []);
    assert s + [0] + e + [0] + [] == v + [0];
  }

  /** After a zero, one wrapped frame adds one closed run. */
  lemma ClosedRunsWrapped(s: seq<Byte>, e: seq<Byte>)
    requires (s == [] || s[|s| - 1] == 0) && e != [] && NoZero(e)
    ensures ClosedRuns(Push(s, e), |Push(s, e)|) == ClosedRuns(s, |s|) + [e]
  {
    ClosedRunsIdle(s);
    ClosedRunsNonzero(s + [0], e);
    ClosedRunsClosed(s, e);
  }

  lemma {:induction false} ClosedRunsOfWire(es: seq<seq<Byte>>)
    requires Wrappable(es)
    ensures ClosedRuns(Wire([], es), |Wire([], es)|) == es
  {
    if es != [] {
      var n := |es| - 1;
      ClosedRunsOfWire(es[..n]);
      ZerosWire([], es[..n]);
      ClosedRunsWrapped(Wire([], es[..n]), es[n]);
      assert es == es[..n] + [es[n]];
    }
  }

  /** On wrapped frames both readers see the same sequence: the frames. */
  lemma ReadersSeeTheSame(es: seq<seq<Byte>>)
    requires Wrappable(es)
    ensures var s := Wire([], es); ClosedRuns(s, |s|) == es == AllFrames(s)
  {
    FramesOfWire(es);
    ClosedRunsOfWire(es);
  }
}
