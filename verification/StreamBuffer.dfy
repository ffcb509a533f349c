/**
  Reassembly of frames from notification chunks. The whole-stream specification pairs the zeros of
  everything received: a frame is what lies between zero 2k and zero 2k+1, if that is not empty.
 */
module StreamBuffers {
  import opened Wrappers
  import opened Bytes
  import opened Gfdi

  const STREAM_BUFFER_MAX: nat := 0x1_0000

  // ----- The buffer's operations on values -----

  function FirstZero(s: seq<Byte>, i: nat): Option<nat>
    requires i <= |s|
    decreases |s| - i
  {
    if i == |s| then None else if s[i] == 0 then Some(i) else FirstZero(s, i + 1)
  }

  /** The next nonempty frame of the buffer, if it is complete, and what stays in the buffer. */
  function NextOf(buf: seq<Byte>): (Option<seq<Byte>>, seq<Byte>)
    decreases |buf|
  {
    match FirstZero(buf, 0)
    case None => (None, buf)
    case Some(start) =>
      FirstZeroSound(buf, 0);
      match FirstZero(buf, start + 1)
      case None => (None, buf)
      case Some(end) =>
        FirstZeroSound(buf, start + 1);
        if end == start + 1 then NextOf(buf[end + 1..]) else (Some(buf[start + 1..end]), buf[end + 1..])
  }

  lemma {:induction false} FirstZeroSound(s: seq<Byte>, i: nat)
    requires i <= |s|
    ensures var z := FirstZero(s, i); z.Some? ==> i <= z.value < |s| && s[z.value] == 0
    decreases |s| - i
  {
    if i < |s| && s[i] != 0 {
      FirstZeroSound(s, i + 1);
    }
  }

  lemma {:induction false} FirstZeroIs(s: seq<Byte>, i: nat, z: nat)
    requires i <= z <= |s| && (z < |s| ==> s[z] == 0)
    requires forall k :: i <= k < z ==> s[k] != 0
    ensures FirstZero(s, i) == if z < |s| then Some(z) else None
    decreases z - i
  {
    if i < z {
      FirstZeroIs(s, i + 1, z);
    }
  }

  class StreamBuffer {
    var buf: seq<Byte>

    ghost predicate Valid()
      reads this
    {
      |buf| <= STREAM_BUFFER_MAX
    }

    constructor ()
      ensures Valid() && buf == []
    {
      buf := [];
    }

    /** Append data; an append that would exceed the bound empties the buffer and fails. */
    method Extend(data: seq<Byte>) returns (r: Result<(), Error>)
      requires Valid()
      modifies this
      ensures Valid()
      ensures r.Ok? <==> |old(buf)| + |data| <= STREAM_BUFFER_MAX
      ensures r.Ok? ==> buf == old(buf) + data
      ensures r.Err? ==> buf == []
    {
      if |buf| + |data| > STREAM_BUFFER_MAX {
        buf := [];
        return Err(FrameTooShort);
      }
      buf := buf + data;
      r := Ok(());
    }

    method NextFrame() returns (r: Option<Result<GfdiFrame, Error>>)
      requires Valid()
      modifies this
      ensures Valid()
      ensures buf == NextOf(old(buf)).1
      ensures match NextOf(old(buf)).0
        case None => r == None
        case Some(cobs) => r == Some(ParseCobsFrame(cobs))
    {
      while true
        invariant Valid() && NextOf(buf) == NextOf(old(buf))
        decreases |buf|
      {
        var start := FirstZero(buf, 0);
        if start == None {
          return None;
        }
        FirstZeroSound(buf, 0);
        var end := FirstZero(buf, start.value + 1);
        if end == None {
          return None;
        }
        FirstZeroSound(buf, start.value + 1);
        var cobs := buf[start.value + 1..end.value];
        buf := buf[end.value + 1..];
        if cobs == [] {
          continue;
        }
        return Some(ParseCobsFrame(cobs));
      }
    }
  }

  // ----- The whole stream -----

  /** Positions of the zeros of `s`, in order. */
  function Zeros(s: seq<Byte>): seq<nat> {
    if s == [] then []
    else
      var n := |s| - 1;
      Zeros(s[..n]) + (if s[n] == 0 then [n] else [])
  }

  /** Where the part of `s` after its first `m` zeros starts. */
  function After(s: seq<Byte>, m: nat): nat
    requires m <= |Zeros(s)|
  {
    if m == 0 then 0 else Zeros(s)[m - 1] + 1
  }

  /** `z` is the position of zero number `m` of `s`, or the end of `s` if there are only `m` zeros. */
  function ZeroOrEnd(s: seq<Byte>, m: nat): nat
    requires m <= |Zeros(s)|
  {
    if m < |Zeros(s)| then Zeros(s)[m] else |s|
  }

  lemma {:induction false} ZerosBounds(s: seq<Byte>, m: nat)
    requires m <= |Zeros(s)|
    ensures After(s, m) <= ZeroOrEnd(s, m) <= |s|
  {
    if s != [] {
      var t := s[..|s| - 1];
      if m <= |Zeros(t)| {
        ZerosBounds(t, m);
      }
    }
  }

  lemma {:induction false} ZerosGap(s: seq<Byte>, m: nat)
    requires m <= |Zeros(s)|
    ensures After(s, m) <= ZeroOrEnd(s, m) <= |s|
    ensures forall k :: After(s, m) <= k < ZeroOrEnd(s, m) ==> s[k] != 0
    ensures m < |Zeros(s)| ==> ZeroOrEnd(s, m) < |s| && s[ZeroOrEnd(s, m)] == 0
  {
    if s != [] {
      var n := |s| - 1;
      var t := s[..n];
      if m <= |Zeros(t)| {
        ZerosGap(t, m);
      } else {
        assert Zeros(s)[m - 1] == n;
      }
    }
  }

  lemma {:induction false} ZerosAppend(s: seq<Byte>, t: seq<Byte>)
    ensures |Zeros(s + t)| >= |Zeros(s)|
    ensures forall m :: 0 <= m < |Zeros(s)| ==> Zeros(s + t)[m] == Zeros(s)[m]
  {
    if t == [] {
      assert s + t == s;
    } else {
      ZerosAppend(s, t[..|t| - 1]);
      assert (s + t)[..|s + t| - 1] == s + t[..|t| - 1];
    }
  }

  /** What lies between zero number `2p` and zero number `2p + 1`. */
  function Segment(s: seq<Byte>, p: nat): seq<Byte>
    requires 2 * p + 1 < |Zeros(s)|
  {
    ZerosBounds(s, 2 * p + 1);
    s[After(s, 2 * p + 1)..ZeroOrEnd(s, 2 * p + 1)]
  }

  /** The nonempty ones among the first `p` segments. */
  function Frames(s: seq<Byte>, p: nat): seq<seq<Byte>>
    requires 2 * p <= |Zeros(s)|
  {
    if p == 0 then []
    else Frames(s, p - 1) + (if Segment(s, p - 1) == [] then [] else [Segment(s, p - 1)])
  }

  function AllFrames(s: seq<Byte>): seq<seq<Byte>> { Frames(s, |Zeros(s)| / 2) }

  /** What is left of the stream once its first `p` pairs of zeros are consumed. */
  function Rest(s: seq<Byte>, p: nat): seq<Byte>
    requires 2 * p <= |Zeros(s)|
  {
    ZerosBounds(s, 2 * p);
    s[After(s, 2 * p)..]
  }

  // ----- The buffer follows the stream -----

  lemma SegmentAppend(s: seq<Byte>, t: seq<Byte>, p: nat)
    requires 2 * p + 1 < |Zeros(s)|
    ensures 2 * p + 1 < |Zeros(s + t)|
    ensures Segment(s + t, p) == Segment(s, p)
  {
    ZerosAppend(s, t);
    ZerosBounds(s, 2 * p + 1);
    ZerosBounds(s + t, 2 * p + 1);
    SliceAppend(s, t, After(s, 2 * p + 1), ZeroOrEnd(s, 2 * p + 1));
  }

  lemma SliceAppend<T>(s: seq<T>, t: seq<T>, a: nat, b: nat)
    requires a <= b <= |s|
    ensures (s + t)[a..b] == s[a..b]
  {}

  lemma SliceOfRest<T>(s: seq<T>, cut: nat, a: nat, b: nat)
    requires cut <= a <= b <= |s|
    ensures s[cut..][a - cut..b - cut] == s[a..b]
    ensures s[cut..][b - cut..] == s[b..]
  {}

  lemma RestAppend(s: seq<Byte>, t: seq<Byte>, p: nat)
    requires 2 * p <= |Zeros(s)|
    ensures 2 * p <= |Zeros(s + t)|
    ensures Rest(s + t, p) == Rest(s, p) + t
  {
    ZerosAppend(s, t);
    ZerosBounds(s, 2 * p);
  }

  lemma {:induction false} FramesAppend(s: seq<Byte>, t: seq<Byte>, p: nat)
    requires 2 * p <= |Zeros(s)| && 2 * p <= |Zeros(s + t)|
    ensures Frames(s + t, p) == Frames(s, p)
  {
    if p > 0 {
      FramesAppend(s, t, p - 1);
      SegmentAppend(s, t, p - 1);
    }
  }

  /** In what is left of the stream after `cut`, the search from the end of zero `m - 1` finds zero `m`. */
  lemma FindZero(s: seq<Byte>, cut: nat, m: nat)
    requires m <= |Zeros(s)| && cut <= After(s, m) <= |s|
    ensures cut <= ZeroOrEnd(s, m) <= |s|
    ensures FirstZero(s[cut..], After(s, m) - cut) ==
      if m < |Zeros(s)| then Some(ZeroOrEnd(s, m) - cut) else None
  {
    ZerosGap(s, m);
    FirstZeroIs(s[cut..], After(s, m) - cut, ZeroOrEnd(s, m) - cut);
  }

  lemma NextOfFound(s: seq<Byte>, cut: nat, a: nat, b: nat)
    requires cut < a <= b < |s|
    requires FirstZero(s[cut..], 0) == Some(a - 1 - cut) && FirstZero(s[cut..], a - cut) == Some(b - cut)
    ensures NextOf(s[cut..]) == if a == b then NextOf(s[b + 1..]) else (Some(s[a..b]), s[b + 1..])
  {
    SliceOfRest(s, cut, a, b);
    SliceOfRest(s, cut, b + 1, b + 1);
  }

  lemma PairBounds(s: seq<Byte>, p: nat, cut: nat, a: nat, b: nat)
    requires 2 * p + 1 < |Zeros(s)|
    requires cut == After(s, 2 * p) && a == After(s, 2 * p + 1) && b == ZeroOrEnd(s, 2 * p + 1)
    ensures cut < a <= b < |s| && a == ZeroOrEnd(s, 2 * p) + 1
    ensures Rest(s, p) == s[cut..] && Segment(s, p) == s[a..b] && Rest(s, p + 1) == s[b + 1..]
  {
    ZerosBounds(s, 2 * p);
    ZerosBounds(s, 2 * p + 1);
    ZerosBounds(s, 2 * p + 2);
  }

  lemma PairFound(s: seq<Byte>, p: nat, cut: nat, a: nat, b: nat)
    requires 2 * p + 1 < |Zeros(s)|
    requires cut == After(s, 2 * p) && a == After(s, 2 * p + 1) && b == ZeroOrEnd(s, 2 * p + 1)
    requires cut < a <= b < |s| && a == ZeroOrEnd(s, 2 * p) + 1
    ensures NextOf(s[cut..]) == if a == b then NextOf(s[b + 1..]) else (Some(s[a..b]), s[b + 1..])
  {
    FindZero(s, cut, 2 * p);
    FindZero(s, cut, 2 * p + 1);
    NextOfFound(s, cut, a, b);
  }

  lemma NextOfPair(s: seq<Byte>, p: nat)
    requires 2 * p + 1 < |Zeros(s)|
    ensures NextOf(Rest(s, p)) ==
      if Segment(s, p) == [] then NextOf(Rest(s, p + 1)) else (Some(Segment(s, p)), Rest(s, p + 1))
  {
    var cut, a, b := After(s, 2 * p), After(s, 2 * p + 1), ZeroOrEnd(s, 2 * p + 1);
    PairBounds(s, p, cut, a, b);
    PairFound(s, p, cut, a, b);
  }

  lemma NextOfNoneFound(s: seq<Byte>, cut: nat, a: nat)
    requires cut < a <= |s|
    requires FirstZero(s[cut..], 0) == Some(a - 1 - cut) && FirstZero(s[cut..], a - cut) == None
    ensures NextOf(s[cut..]) == (None, s[cut..])
  {}

  lemma NextOfNoPair(s: seq<Byte>, p: nat)
    requires 2 * p <= |Zeros(s)| <= 2 * p + 1
    ensures NextOf(Rest(s, p)) == (None, Rest(s, p))
  {
    ZerosBounds(s, 2 * p);
    var cut := After(s, 2 * p);
    FindZero(s, cut, 2 * p);
    if 2 * p < |Zeros(s)| {
      ZerosBounds(s, 2 * p + 1);
      FindZero(s, cut, 2 * p + 1);
      NextOfNoneFound(s, cut, After(s, 2 * p + 1));
    }
  }

  /** One call consumes pairs of zeros up to and including the first nonempty segment, or all pairs. */
  lemma {:induction false} NextOfStream(s: seq<Byte>, p: nat) returns (q: nat)
    requires 2 * p <= |Zeros(s)|
    ensures p <= q && 2 * q <= |Zeros(s)|
    ensures var (frame, rest) := NextOf(Rest(s, p));
      && rest == Rest(s, q)
      && Frames(s, q) == Frames(s, p) + (if frame.Some? then [frame.value] else [])
      && (frame == None ==> q == |Zeros(s)| / 2)
    decreases |Zeros(s)| - 2 * p
  {
    if 2 * p + 1 < |Zeros(s)| {
      NextOfPair(s, p);
      q := p + 1;
      if Segment(s, p) == [] {
        q := NextOfStream(s, p + 1);
      }
    } else {
      NextOfNoPair(s, p);
      q := p;
    }
  }

  // ----- Any interleaving of the operations -----

  datatype BufOp = Extend(data: seq<Byte>) | Next

  datatype BufRun = BufRun(buf: seq<Byte>, frames: seq<seq<Byte>>, overflowed: bool)

  /** The buffer, and the frames it has handed out, after a sequence of operations. */
  function RunOps(ops: seq<BufOp>): BufRun {
    if ops == [] then BufRun([], [], false)
    else
      var r := RunOps(ops[..|ops| - 1]);
      match ops[|ops| - 1]
      case Extend(data) =>
        if |r.buf| + |data| > STREAM_BUFFER_MAX then r.(buf := [], overflowed := true)
        else r.(buf := r.buf + data)
      case Next =>
        var (frame, rest) := NextOf(r.buf);
        BufRun(rest, r.frames + (if frame.Some? then [frame.value] else []), r.overflowed)
  }

  function Stream(ops: seq<BufOp>): seq<Byte> {
    if ops == [] then []
    else
      var s := Stream(ops[..|ops| - 1]);
      match ops[|ops| - 1]
      case Extend(data) => s + data
      case Next => s
  }

  /** The frames handed out are those of the stream so far, however it was cut and whenever they were asked for. */
  lemma {:induction false} RunFollowsStream(ops: seq<BufOp>) returns (p: nat)
    requires !RunOps(ops).overflowed
    ensures var s := Stream(ops); var r := RunOps(ops);
      2 * p <= |Zeros(s)| && r.buf == Rest(s, p) && r.frames == Frames(s, p)
  {
    if ops == [] {
      p := 0;
    } else {
      var before := ops[..|ops| - 1];
      p := RunFollowsStream(before);
      match ops[|ops| - 1]
      case Extend(data) =>
        RestAppend(Stream(before), data, p);
        FramesAppend(Stream(before), data, p);
      case Next => p := NextOfStream(Stream(before), p);
    }
  }

  lemma {:induction false} FramesPrefix(s: seq<Byte>, p: nat, q: nat)
    requires p <= q && 2 * q <= |Zeros(s)|
    ensures Frames(s, p) <= Frames(s, q)
  {
    if p < q {
      FramesPrefix(s, p, q - 1);
    }
  }

  /**
    Independence of chunking: without overflow, the frames handed out are always a prefix of the frames of
    the whole stream, and all of them once a call has found none left.
   */
  lemma ChunkingIndependent(ops: seq<BufOp>)
    requires !RunOps(ops).overflowed
    ensures RunOps(ops).frames <= AllFrames(Stream(ops))
    ensures NextOf(RunOps(ops).buf).0 == None ==> RunOps(ops).frames == AllFrames(Stream(ops))
  {
    var s := Stream(ops);
    var p := RunFollowsStream(ops);
    FramesPrefix(s, p, |Zeros(s)| / 2);
    var q := NextOfStream(s, p);
  }

  lemma {:induction false} NextOfShrinks(buf: seq<Byte>)
    ensures |NextOf(buf).1| <= |buf|
    decreases |buf|
  {
    var start := FirstZero(buf, 0);
    if start.Some? {
      FirstZeroSound(buf, 0);
      var end := FirstZero(buf, start.value + 1);
      if end.Some? {
        FirstZeroSound(buf, start.value + 1);
        NextOfShrinks(buf[end.value + 1..]);
      }
    }
  }

  /** The buffer never exceeds its bound, overflow or not. */
  lemma {:induction false} BufferBounded(ops: seq<BufOp>)
    ensures |RunOps(ops).buf| <= STREAM_BUFFER_MAX
  {
    if ops != [] {
      var before := ops[..|ops| - 1];
      BufferBounded(before);
      NextOfShrinks(RunOps(before).buf);
    }
  }
}
