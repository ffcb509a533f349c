/**
  What a capture keeps: exactly the chunks that touch no frame to be kept out, as long as frames stay within the
  filter's bounds, and so of a conversation exactly the chunks of the messages that hold no secret.
 */
module Releases {
  import opened Bytes
  import opened Gfdi
  import opened Multilink
  import opened FrameStream
  import opened FrameOnWire
  import opened CaptureSpec
  import opened CaptureTheorems
  import opened Pipeline
  import opened Identity

  // ----- Any stream -----

  /** Chunk `k` has a byte of the frame closed at `i`, or its closing delimiter. */
  predicate Touches(bodies: seq<seq<Byte>>, k: nat, i: nat)
    requires k < |bodies| && i < |Flatten(bodies)|
  {
    Start(Flatten(bodies), i) < Ends(bodies)[k] && ChunkStart(bodies, k) <= i
  }

  /** How many of the first `n` chunks end in `(a, i]`. */
  function EndsWithin(ends: seq<nat>, a: nat, i: nat, n: nat): nat
    requires n <= |ends|
  {
    if n == 0 then 0 else EndsWithin(ends, a, i, n - 1) + (if a < ends[n - 1] <= i then 1 else 0)
  }

  /** The frame closed at `i` has at most 8192 bytes, and at most 256 chunks end inside it. */
  predicate WithinBounds(bodies: seq<seq<Byte>>, i: nat)
    requires i < |Flatten(bodies)|
  {
    var a := Start(Flatten(bodies), i);
    i - a <= 8192 && EndsWithin(Ends(bodies), a, i, |bodies|) <= 256
  }

  lemma {:induction false} EndsWithinGrows(ends: seq<nat>, a: nat, i: nat, m: nat, n: nat)
    requires m <= n <= |ends|
    ensures EndsWithin(ends, a, i, m) <= EndsWithin(ends, a, i, n)
  {
    if m < n {
      EndsWithinGrows(ends, a, i, m, n - 1);
    }
  }

  lemma {:induction false} HeldEndWithin(ends: seq<nat>, kept: seq<bool>, a: nat, i: nat, n: nat)
    requires n <= |ends| == |kept| && forall j :: 0 <= j < n ==> ends[j] <= i
    ensures |HeldFor(ends, kept, a, n)| <= EndsWithin(ends, a, i, n)
  {
    if n > 0 {
      HeldEndWithin(ends, kept, a, i, n - 1);
    }
  }

  lemma NotCrowded(s: seq<Byte>, ends: seq<nat>, kept: seq<bool>, a: nat, i: nat)
    requires Ordered(s, ends, kept) && EndsWithin(ends, a, i, |ends|) <= 256
    ensures !Crowded(ends, kept, a, i)
  {
    forall k | 0 <= k < |ends| && a < ends[k] <= i ensures |HeldFor(ends, kept, a, k)| < 256 {
      HeldEndWithin(ends, kept, a, i, k);
      EndsWithinGrows(ends, a, i, k + 1, |ends|);
    }
  }

  lemma GoodWithinBounds(bodies: seq<seq<Byte>>, i: nat)
    requires i < |Flatten(bodies)| && WithinBounds(bodies, i) && !FrameExcluded(RunAt(Flatten(bodies), i))
    ensures Good(Flatten(bodies), Ends(bodies), Kept(bodies), i)
  {
    EndsOrdered(bodies);
    NotCrowded(Flatten(bodies), Ends(bodies), Kept(bodies), Start(Flatten(bodies), i), i);
  }

  /** A frame is judged when it closes as it is in the whole capture. */
  lemma JudgedOnArrival(bodies: seq<seq<Byte>>, k: nat, i: nat)
    requires k < |bodies| && i < |Flatten(bodies[..k + 1])| <= |Flatten(bodies)|
    requires Good(Flatten(bodies), Ends(bodies), Kept(bodies), i)
    ensures Good(Flatten(bodies[..k + 1]), Ends(bodies[..k]), Kept(bodies[..k]), i)
  {
    var upto := bodies[..k + 1];
    Upto(bodies, k);
    VerdictsGrow(upto, bodies[k + 1..], i);
    assert upto[..k] == bodies[..k];
    GoodGrows(Flatten(upto), Flatten(upto), Ends(bodies[..k]), Ends(upto), Kept(bodies[..k]), Kept(upto), i);
  }

  lemma ClosedOnArrival(bodies: seq<seq<Byte>>, k: nat, i: nat)
    requires k < |bodies| && i < |Flatten(bodies[..k + 1])|
    ensures |Flatten(bodies[..k + 1])| <= |Flatten(bodies)|
    ensures Closes(Flatten(bodies[..k + 1]), i) == Closes(Flatten(bodies), i)
  {
    Upto(bodies, k);
    FlattenAppend(bodies[..k + 1], bodies[k + 1..]);
    CloseStable(Flatten(bodies[..k + 1]), Flatten(bodies[k + 1..]), i);
  }

  /** Every frame that chunk `k` touches may be kept. */
  ghost predicate TouchesOnlyGood(bodies: seq<seq<Byte>>, k: nat)
    requires k < |bodies|
  {
    forall i :: 0 <= i < |Flatten(bodies)| && Closes(Flatten(bodies), i) && Touches(bodies, k, i) ==>
      Good(Flatten(bodies), Ends(bodies), Kept(bodies), i)
  }

  lemma ClosesOnlyGood(bodies: seq<seq<Byte>>, k: nat)
    requires k < |bodies| && TouchesOnlyGood(bodies, k)
    ensures Kept(bodies)[k]
  {
    var upto := Flatten(bodies[..k + 1]);
    OneChunk(bodies, k);
    UptoEnds(bodies, k);
    forall i | ChunkStart(bodies, k) <= i < |upto| && Closes(upto, i)
      ensures Good(upto, Ends(bodies[..k]), Kept(bodies[..k]), i)
    {
      ClosedOnArrival(bodies, k, i);
      JudgedOnArrival(bodies, k, i);
    }
  }

  /** A run still open at `e` is closed by the first zero from there on, if there is one. */
  lemma {:induction false} CloserOf(s: seq<Byte>, e: nat, n: nat) returns (i: nat)
    requires e <= n <= |s| && RunBefore(s, e) > 0 && RunBefore(s, n) == 0
    ensures e <= i < n && Closes(s, i) && Start(s, i) < e
    decreases n - e
  {
    if s[e] == 0 {
      i := e;
    } else {
      i := CloserOf(s, e + 1, n);
      if Start(s, i) == e {
        RunBeforeIsRun(s, i);
      }
    }
  }

  /**
    In a stream that ends on a delimiter, a chunk that touches only frames within the bounds is released exactly if it
    touches none to be kept out.
   */
  lemma ReleasedExactly(bodies: seq<seq<Byte>>, k: nat)
    requires k < |bodies| && RunBefore(Flatten(bodies), |Flatten(bodies)|) == 0
    requires forall i :: 0 <= i < |Flatten(bodies)| && Closes(Flatten(bodies), i) && Touches(bodies, k, i) ==>
      WithinBounds(bodies, i)
    ensures k in Keepable(bodies) <==>
      forall i :: 0 <= i < |Flatten(bodies)| && Closes(Flatten(bodies), i) && Touches(bodies, k, i) ==>
        !FrameExcluded(RunAt(Flatten(bodies), i))
  {
    var s := Flatten(bodies);
    ReleasedInOrder(bodies);
    OneChunk(bodies, k);
    if IsCleared(bodies, k) {
      forall i | 0 <= i < |s| && Closes(s, i) && Touches(bodies, k, i) ensures !FrameExcluded(RunAt(s, i)) {
        if FrameExcluded(RunAt(s, i)) {
          ExcludedNeverReleased(bodies, i, k);
        }
      }
    }
    if forall i :: 0 <= i < |s| && Closes(s, i) && Touches(bodies, k, i) ==> !FrameExcluded(RunAt(s, i)) {
      forall i | 0 <= i < |s| && Closes(s, i) && Touches(bodies, k, i) ensures Good(s, Ends(bodies), Kept(bodies), i) {
        GoodWithinBounds(bodies, i);
      }
      ClearedIfOnlyGood(bodies, k);
    }
  }

  lemma ClearedIfOnlyGood(bodies: seq<seq<Byte>>, k: nat)
    requires k < |bodies| && RunBefore(Flatten(bodies), |Flatten(bodies)|) == 0 && TouchesOnlyGood(bodies, k)
    ensures IsCleared(bodies, k)
  {
    var s, e := Flatten(bodies), Ends(bodies)[k];
    EndsOrdered(bodies);
    OneChunk(bodies, k);
    ClosesOnlyGood(bodies, k);
    if RunBefore(s, e) != 0 {
      var i := CloserOf(s, e, |s|);
      assert ClosesFor(s, Ends(bodies), k, i) && Touches(bodies, k, i);
    }
  }

  // ----- Beyond the bounds -----

  /** Whatever it holds: no chunk that touches a frame of more than 8192 bytes is released. */
  lemma LongFrameDropped(bodies: seq<seq<Byte>>, k: nat, i: nat)
    requires k < |bodies| && i < |Flatten(bodies)| && Closes(Flatten(bodies), i) && Touches(bodies, k, i)
    requires i - Start(Flatten(bodies), i) > 8192
    ensures k !in Keepable(bodies)
  {
    BadFrameDropped(bodies, k, i);
  }

  lemma BadFrameDropped(bodies: seq<seq<Byte>>, k: nat, i: nat)
    requires k < |bodies| && i < |Flatten(bodies)| && Closes(Flatten(bodies), i) && Touches(bodies, k, i)
    requires !Good(Flatten(bodies), Ends(bodies), Kept(bodies), i)
    ensures k !in Keepable(bodies)
  {
    var s, ends := Flatten(bodies), Ends(bodies);
    ReleasedInOrder(bodies);
    EndsOrdered(bodies);
    OneChunk(bodies, k);
    if IsCleared(bodies, k) {
      if i < ends[k] {
        ClosedBad(bodies, k, i);
      } else {
        StillOpen(s, ends[k], i);
        var j :| ends[k] <= j < |s| && ClosesFor(s, ends, k, j) && Good(s, ends, Kept(bodies), j);
        OneCloser(s, ends[k], i, j);
      }
    }
  }

  lemma ClosedBad(bodies: seq<seq<Byte>>, k: nat, i: nat)
    requires k < |bodies| && ChunkStart(bodies, k) <= i < Ends(bodies)[k] <= |Flatten(bodies)|
    requires Closes(Flatten(bodies), i) && !Good(Flatten(bodies), Ends(bodies), Kept(bodies), i)
    ensures !Kept(bodies)[k]
  {
    var upto := bodies[..k + 1];
    OneChunk(bodies, k);
    UptoEnds(bodies, k);
    ClosedOnArrival(bodies, k, i);
    Upto(bodies, k);
    VerdictsGrow(upto, bodies[k + 1..], i);
    assert upto[..k] == bodies[..k];
    GoodGrows(Flatten(upto), Flatten(upto), Ends(bodies[..k]), Ends(upto), Kept(bodies[..k]), Kept(upto), i);
  }

  /** The chunks from `c` on, as many as `n`, lie inside the frame that starts at `a`. */
  predicate Inside(bodies: seq<seq<Byte>>, a: nat, i: nat, c: nat, n: nat)
    requires c + n <= |bodies|
  {
    forall k :: c <= k < c + n ==> a <= ChunkStart(bodies, k) && a < Ends(bodies)[k] <= i
  }

  lemma InsideKept(bodies: seq<seq<Byte>>, i: nat, k: nat)
    requires k < |bodies| && i < |Flatten(bodies)| && Closes(Flatten(bodies), i)
    requires Start(Flatten(bodies), i) <= ChunkStart(bodies, k) && Ends(bodies)[k] <= i
    ensures Kept(bodies)[k]
  {
    var s, upto := Flatten(bodies), Flatten(bodies[..k + 1]);
    OneChunk(bodies, k);
    UptoEnds(bodies, k);
    Upto(bodies, k);
    FlattenAppend(bodies[..k + 1], bodies[k + 1..]);
    RunBeforeIsRun(s, i);
    forall j | ChunkStart(bodies, k) <= j < |upto| ensures upto[j] != 0 {
      assert upto[j] == s[j];
    }
  }

  lemma {:induction false} HeldInside(bodies: seq<seq<Byte>>, a: nat, c: nat, n: nat)
    requires c + n <= |bodies| && forall k :: c <= k < c + n ==> a < Ends(bodies)[k] && Kept(bodies)[k]
    ensures |HeldFor(Ends(bodies), Kept(bodies), a, c + n)| >= n
  {
    if n > 0 {
      HeldInside(bodies, a, c, n - 1);
    }
  }

  /** Nor is one that touches a frame inside which 257 chunks lie. */
  lemma CrowdedFrameDropped(bodies: seq<seq<Byte>>, k: nat, i: nat, c: nat)
    requires k < |bodies| && i < |Flatten(bodies)| && Closes(Flatten(bodies), i) && Touches(bodies, k, i)
    requires c + 257 <= |bodies| && Inside(bodies, Start(Flatten(bodies), i), i, c, 257)
    ensures k !in Keepable(bodies)
  {
    var a := Start(Flatten(bodies), i);
    forall m | c <= m < c + 256 ensures Kept(bodies)[m] {
      InsideKept(bodies, i, m);
    }
    HeldInside(bodies, a, c, 256);
    assert Crowded(Ends(bodies), Kept(bodies), a, i);
    BadFrameDropped(bodies, k, i);
  }

  // ----- Conversations -----

  /** Where the chunks of message `j` start. */
  function FirstChunk(ms: seq<Message>, handle: Byte, mtu: nat, j: nat): nat
    requires j <= |ms|
  {
    |SentChunks(ms[..j], handle, mtu)|
  }

  /** Where the bytes of message `j` start in the stream. */
  function FirstByte(ms: seq<Message>, j: nat): nat
    requires j <= |ms|
  {
    |Wire([], EncodedAll(ms[..j]))|
  }

  lemma {:induction false} ChunksGrow(ms: seq<Message>, handle: Byte, mtu: nat, j: nat)
    requires j <= |ms|
    ensures SentChunks(ms[..j], handle, mtu) <= SentChunks(ms, handle, mtu)
    decreases |ms|
  {
    if j == |ms| {
      assert ms[..j] == ms;
    } else {
      var n := |ms| - 1;
      ChunksGrow(ms[..n], handle, mtu, j);
      assert ms[..n][..j] == ms[..j];
      OneMessageMore(ms, handle, mtu);
    }
  }

  lemma OneMessageMore(ms: seq<Message>, handle: Byte, mtu: nat)
    requires ms != []
    ensures SentChunks(ms[..|ms| - 1], handle, mtu) <= SentChunks(ms, handle, mtu)
  {}

  lemma MessageBytes(ms: seq<Message>, j: nat)
    requires j < |ms|
    ensures FirstByte(ms, j + 1) == FirstByte(ms, j) + |Encoded(ms[j])| + 2
  {
    var es := EncodedAll(ms[..j + 1]);
    assert es[..j] == EncodedAll(ms[..j]);
  }

  lemma {:induction false} BytesGrow(ms: seq<Message>, j: nat, k: nat)
    requires j <= k <= |ms|
    ensures FirstByte(ms, j) <= FirstByte(ms, k)
  {
    if j < k {
      BytesGrow(ms, j, k - 1);
      MessageBytes(ms, k - 1);
    }
  }

  /** The bodies of the chunks before those of message `j` are the messages before it. */
  lemma BytesBefore(ms: seq<Message>, handle: Byte, mtu: nat, j: nat)
    requires mtu >= 2 && j <= |ms|
    ensures var bodies, n := Bodies(SentChunks(ms, handle, mtu)), FirstChunk(ms, handle, mtu, j);
      n <= |bodies| && |Flatten(bodies[..n])| == FirstByte(ms, j)
  {
    var chunks := SentChunks(ms[..j], handle, mtu);
    ChunksGrow(ms, handle, mtu, j);
    SentChunksCarryMessages(ms[..j], handle, mtu);
    assert Bodies(SentChunks(ms, handle, mtu))[..|chunks|] == Bodies(chunks);
  }

  lemma {:induction false} PrefixShorter(bodies: seq<seq<Byte>>, m: nat, n: nat)
    requires m <= n <= |bodies|
    ensures |Flatten(bodies[..m])| <= |Flatten(bodies[..n])|
  {
    if m < n {
      PrefixShorter(bodies, m, n - 1);
      assert bodies[..n][..n - 1] == bodies[..n - 1];
    }
  }

  /** Chunk `k` is one of message `j`. */
  predicate ChunkOfMessage(ms: seq<Message>, handle: Byte, mtu: nat, j: nat, k: nat)
    requires j < |ms|
  {
    FirstChunk(ms, handle, mtu, j) <= k < FirstChunk(ms, handle, mtu, j + 1)
  }

  lemma NonemptyBody(ms: seq<Message>, handle: Byte, mtu: nat, k: nat)
    requires mtu >= 2 && k < |SentChunks(ms, handle, mtu)|
    ensures Bodies(SentChunks(ms, handle, mtu))[k] != []
  {
    SentChunksFit(ms, handle, mtu, k);
  }

  lemma {:induction false} SentChunksFit(ms: seq<Message>, handle: Byte, mtu: nat, k: nat)
    requires mtu >= 2 && k < |SentChunks(ms, handle, mtu)|
    ensures 2 <= |SentChunks(ms, handle, mtu)[k]| <= mtu
  {
    var n := |ms| - 1;
    var before := SentChunks(ms[..n], handle, mtu);
    if k < |before| {
      SentChunksFit(ms[..n], handle, mtu, k);
    } else {
      var f := WrapCobs(BuildFrame(ms[n].msgType, ms[n].payload));
      ChunksCarryData(f, handle, mtu);
      assert SentChunks(ms, handle, mtu)[k] == ChunkWithHandle(f, handle, mtu)[k - |before|];
    }
  }

  /** A chunk lies within its message. */
  lemma ChunkInMessage(ms: seq<Message>, handle: Byte, mtu: nat, j: nat, k: nat)
    requires mtu >= 2 && j < |ms| && ChunkOfMessage(ms, handle, mtu, j, k)
    ensures var bodies := Bodies(SentChunks(ms, handle, mtu));
      && k < |bodies|
      && FirstByte(ms, j) <= ChunkStart(bodies, k) < Ends(bodies)[k] <= FirstByte(ms, j + 1)
      && (k > FirstChunk(ms, handle, mtu, j) ==> FirstByte(ms, j) < ChunkStart(bodies, k))
  {
    var bodies, m := Bodies(SentChunks(ms, handle, mtu)), FirstChunk(ms, handle, mtu, j);
    BytesBefore(ms, handle, mtu, j);
    BytesBefore(ms, handle, mtu, j + 1);
    PrefixShorter(bodies, m, k);
    PrefixShorter(bodies, k + 1, FirstChunk(ms, handle, mtu, j + 1));
    OneChunk(bodies, k);
    UptoEnds(bodies, k);
    NonemptyBody(ms, handle, mtu, k);
    if k > m {
      NonemptyBody(ms, handle, mtu, k - 1);
      UptoEnds(bodies, k - 1);
      PrefixShorter(bodies, m, k - 1);
    }
  }

  /** Where message `j` is closed. */
  function Closing(ms: seq<Message>, j: nat): nat
    requires j < |ms|
  {
    FirstByte(ms, j) + 1 + |Encoded(ms[j])|
  }

  lemma AroundMessage(ms: seq<Message>, s: seq<Byte>, j: nat, u: seq<Byte>, e: seq<Byte>) returns (w: seq<Byte>)
    requires j < |ms| && s == Wire([], EncodedAll(ms)) && u == Wire([], EncodedAll(ms[..j])) && e == Encoded(ms[j])
    ensures s == u + [0] + e + [0] + w && e != [] && NoZero(e)
  {
    w := WireAroundMessage(ms, j);
    EncodedBuilt(ms[j].msgType, ms[j].payload);
    WrappedInStream(u, e, w);
  }

  lemma MessageCloses(ms: seq<Message>, s: seq<Byte>, j: nat)
    requires j < |ms| && s == Wire([], EncodedAll(ms))
    ensures var i := Closing(ms, j);
      i < |s| && Closes(s, i) && Start(s, i) == FirstByte(ms, j) + 1 && RunAt(s, i) == Encoded(ms[j])
  {
    var u := Wire([], EncodedAll(ms[..j]));
    var e := Encoded(ms[j]);
    var w := AroundMessage(ms, s, j, u, e);
    DelimitedIs(s, u, e, w, Closing(ms, j));
  }

  /** Every closed run of a stream of messages is one of the messages. */
  lemma {:induction false} ClosedByMessage(ms: seq<Message>, s: seq<Byte>, i: nat) returns (j: nat)
    requires s == Wire([], EncodedAll(ms)) && i < |s| && Closes(s, i)
    ensures j < |ms| && i == Closing(ms, j)
  {
    var n := |ms| - 1;
    var before, e := ms[..n], Encoded(ms[n]);
    var t := Wire([], EncodedAll(before));
    assert EncodedAll(ms)[..n] == EncodedAll(before);
    EncodedBuilt(ms[n].msgType, ms[n].payload);
    PushIs(t, e);
    if i < |t| {
      CloseStable(t, [0] + e + [0], i);
      j := ClosedByMessage(before, t, i);
      assert before[..j] == ms[..j];
    } else {
      j := n;
      StreamEndsOpen(before, t);
      ClosesLast(t, e, i);
    }
  }

  lemma PushIs(t: seq<Byte>, e: seq<Byte>)
    ensures Push(t, e) == t + ([0] + e + [0])
  {}

  /** Behind a stream with nothing open, a wrapped frame closes only at its last byte. */
  lemma ClosesLast(t: seq<Byte>, e: seq<Byte>, i: nat)
    requires NoZero(e) && RunBefore(t, |t|) == 0
    requires var s := t + ([0] + e + [0]); |t| <= i < |s| && Closes(s, i)
    ensures i == |t| + 1 + |e|
  {
    var w := [0] + e + [0];
    StartStable(t, w, |t|);
    assert (t + w)[i] == w[i - |t|];
  }

  lemma StreamEndsOpen(ms: seq<Message>, s: seq<Byte>)
    requires s == Wire([], EncodedAll(ms))
    ensures RunBefore(s, |s|) == 0
  {}

  lemma {:induction false} EndsOutside(ends: seq<nat>, a: nat, i: nat, lo: nat, hi: nat, n: nat)
    requires lo <= hi && n <= |ends|
    requires forall k :: 0 <= k < n && a < ends[k] <= i ==> lo <= k < hi
    ensures EndsWithin(ends, a, i, n) <= if n <= lo then 0 else if n <= hi then n - lo else hi - lo
  {
    if n > 0 {
      EndsOutside(ends, a, i, lo, hi, n - 1);
    }
  }

  lemma {:induction false} MessageOfChunk(ms: seq<Message>, handle: Byte, mtu: nat, k: nat) returns (j: nat)
    requires k < |SentChunks(ms, handle, mtu)|
    ensures j < |ms| && ChunkOfMessage(ms, handle, mtu, j, k)
  {
    var n := |ms| - 1;
    assert ms[..n + 1] == ms;
    if k < FirstChunk(ms, handle, mtu, n) {
      j := MessageOfChunk(ms[..n], handle, mtu, k);
      assert ms[..n][..j] == ms[..j] && ms[..n][..j + 1] == ms[..j + 1];
    } else {
      j := n;
    }
  }

  /** Only a message's own chunks touch it. */
  lemma TouchesOwn(ms: seq<Message>, handle: Byte, mtu: nat, j: nat, m: nat, k: nat)
    requires mtu >= 2 && j < |ms| && m < |ms| && ChunkOfMessage(ms, handle, mtu, j, k)
    ensures var bodies := Bodies(SentChunks(ms, handle, mtu));
      k < |bodies| && (FirstByte(ms, m) + 1 < Ends(bodies)[k] && ChunkStart(bodies, k) <= Closing(ms, m) ==> j == m)
  {
    ChunkInMessage(ms, handle, mtu, j, k);
    MessageBytes(ms, m);
    if j < m {
      BytesGrow(ms, j + 1, m);
    } else if m < j {
      BytesGrow(ms, m + 1, j);
    }
  }

  /** The message fits the filter: at most 8192 bytes encoded, in at most 256 chunks. */
  predicate FitsFilter(m: Message, handle: Byte, mtu: nat) {
    && |Encoded(m)| <= 8192
    && |ChunkWithHandle(WrapCobs(BuildFrame(m.msgType, m.payload)), handle, mtu)| <= 256
  }

  lemma ChunkCount(ms: seq<Message>, handle: Byte, mtu: nat, j: nat)
    requires j < |ms| && FitsFilter(ms[j], handle, mtu)
    ensures FirstChunk(ms, handle, mtu, j) <= FirstChunk(ms, handle, mtu, j + 1) <= FirstChunk(ms, handle, mtu, j) + 256
  {
    assert ms[..j + 1][..j] == ms[..j];
  }

  /** Only chunks of message `j` end inside it. */
  lemma EndsInOwn(ms: seq<Message>, handle: Byte, mtu: nat, j: nat, bodies: seq<seq<Byte>>, k: nat)
    requires mtu >= 2 && j < |ms| && bodies == Bodies(SentChunks(ms, handle, mtu)) && k < |bodies|
    requires FirstByte(ms, j) + 1 < Ends(bodies)[k] <= Closing(ms, j)
    ensures ChunkOfMessage(ms, handle, mtu, j, k)
  {
    var m := MessageOfChunk(ms, handle, mtu, k);
    ChunkInMessage(ms, handle, mtu, m, k);
    TouchesOwn(ms, handle, mtu, m, j, k);
  }

  lemma MessageWithinBounds(ms: seq<Message>, handle: Byte, mtu: nat, j: nat, bodies: seq<seq<Byte>>, i: nat)
    requires mtu >= 2 && j < |ms| && FitsFilter(ms[j], handle, mtu) && bodies == Bodies(SentChunks(ms, handle, mtu))
    requires i == Closing(ms, j) && i < |Flatten(bodies)| && Start(Flatten(bodies), i) == FirstByte(ms, j) + 1
    ensures WithinBounds(bodies, i)
  {
    ChunkCount(ms, handle, mtu, j);
    var lo, hi := FirstChunk(ms, handle, mtu, j), FirstChunk(ms, handle, mtu, j + 1);
    forall k | 0 <= k < |bodies| && FirstByte(ms, j) + 1 < Ends(bodies)[k] <= i ensures lo <= k < hi {
      EndsInOwn(ms, handle, mtu, j, bodies, k);
    }
    EndsOutside(Ends(bodies), FirstByte(ms, j) + 1, i, lo, hi, |bodies|);
  }

  /** The first chunk of a message can hold nothing but its opening delimiter. */
  predicate OpeningOnly(ms: seq<Message>, handle: Byte, mtu: nat, j: nat, k: nat)
    requires j < |ms| && k < |SentChunks(ms, handle, mtu)|
  {
    k == FirstChunk(ms, handle, mtu, j) && |Bodies(SentChunks(ms, handle, mtu))[k]| == 1
  }

  /** Any other chunk touches its own message. */
  lemma OwnTouches(ms: seq<Message>, handle: Byte, mtu: nat, j: nat, k: nat)
    requires mtu >= 2 && j < |ms| && ChunkOfMessage(ms, handle, mtu, j, k)
    ensures var bodies := Bodies(SentChunks(ms, handle, mtu));
      && k < |bodies| && ChunkStart(bodies, k) <= Closing(ms, j)
      && (OpeningOnly(ms, handle, mtu, j, k) <==> Ends(bodies)[k] <= FirstByte(ms, j) + 1)
  {
    ChunkInMessage(ms, handle, mtu, j, k);
    BytesBefore(ms, handle, mtu, j);
    MessageBytes(ms, j);
    OneChunk(Bodies(SentChunks(ms, handle, mtu)), k);
  }

  /** The only closed run a chunk touches is its own message. */
  lemma RunOfMessages(ms: seq<Message>, handle: Byte, mtu: nat, j: nat, k: nat, bodies: seq<seq<Byte>>, i: nat)
    requires mtu >= 2 && j < |ms| && ChunkOfMessage(ms, handle, mtu, j, k)
    requires bodies == Bodies(SentChunks(ms, handle, mtu)) && k < |bodies|
    requires i < |Flatten(bodies)| && Closes(Flatten(bodies), i) && Touches(bodies, k, i)
    ensures i == Closing(ms, j)
  {
    SentChunksCarryMessages(ms, handle, mtu);
    var m := ClosedByMessage(ms, Flatten(bodies), i);
    MessageCloses(ms, Flatten(bodies), m);
    TouchesOwn(ms, handle, mtu, j, m, k);
  }

  predicate IsGuarded(m: Message) { Guarded(m.msgType as int, m.payload) }

  lemma MessageJudged(m: Message)
    requires Faithful(m.msgType, m.payload) || IsGuarded(m)
    ensures FrameExcluded(Encoded(m)) <==> IsGuarded(m)
  {
    if IsGuarded(m) {
      SecretsExcluded(m.msgType, m.payload);
    } else {
      OthersCleared(m.msgType, m.payload);
    }
  }

  lemma OneFrameDecides(bodies: seq<seq<Byte>>, k: nat, c: nat)
    requires k < |bodies| && RunBefore(Flatten(bodies), |Flatten(bodies)|) == 0
    requires c < |Flatten(bodies)| && Closes(Flatten(bodies), c) && WithinBounds(bodies, c)
    requires forall i :: 0 <= i < |Flatten(bodies)| && Closes(Flatten(bodies), i) && Touches(bodies, k, i) ==> i == c
    ensures k in Keepable(bodies) <==> !Touches(bodies, k, c) || !FrameExcluded(RunAt(Flatten(bodies), c))
  {
    ReleasedExactly(bodies, k);
  }

  /**
    A capture of any messages, sent in chunks of any MTU of at least 2. Of a message that arrives as sent or is guarded,
    and fits the filter, every chunk is released if it is not guarded, and none if it is, but for a chunk that holds
    nothing but its opening delimiter.
   */
  lemma ConversationReleased(ms: seq<Message>, handle: Byte, mtu: nat, j: nat, k: nat)
    requires mtu >= 2 && j < |ms| && ChunkOfMessage(ms, handle, mtu, j, k) && k < |SentChunks(ms, handle, mtu)|
    requires FitsFilter(ms[j], handle, mtu)
    requires Faithful(ms[j].msgType, ms[j].payload) || IsGuarded(ms[j])
    ensures k in Keepable(Bodies(SentChunks(ms, handle, mtu))) <==>
      !IsGuarded(ms[j]) || OpeningOnly(ms, handle, mtu, j, k)
  {
    var bodies := Bodies(SentChunks(ms, handle, mtu));
    var s := Flatten(bodies);
    SentChunksCarryMessages(ms, handle, mtu);
    StreamEndsOpen(ms, s);
    OwnTouches(ms, handle, mtu, j, k);
    MessageCloses(ms, s, j);
    MessageWithinBounds(ms, handle, mtu, j, bodies, Closing(ms, j));
    forall i | 0 <= i < |s| && Closes(s, i) && Touches(bodies, k, i) ensures i == Closing(ms, j) {
      RunOfMessages(ms, handle, mtu, j, k, bodies, i);
    }
    OneFrameDecides(bodies, k, Closing(ms, j));
    MessageJudged(ms[j]);
  }
}
