/** Streams of wrapped frames, and what the two ways of cutting them into frames see. */
module FrameStream {
  import opened Bytes
  import opened StreamBuffers

  /** `s` followed by one frame between its own two delimiters. */
  function Push(s: seq<Byte>, e: seq<Byte>): seq<Byte> { s + [0] + e + [0] }

  /** `prefix` followed by the frames of `es`. */
  function Wire(prefix: seq<Byte>, es: seq<seq<Byte>>): seq<Byte> {
    if es == [] then prefix else Push(Wire(prefix, es[..|es| - 1]), es[|es| - 1])
  }

  predicate Wrappable(es: seq<seq<Byte>>) {
    forall i :: 0 <= i < |es| ==> es[i] != [] && NoZero(es[i])
  }

  lemma ZerosPush(s: seq<Byte>, b: Byte)
    ensures Zeros(s + [b]) == Zeros(s) + (if b == 0 then [|s|] else [])
  {
    assert (s + [b])[..|s|] == s;
  }

  lemma {:induction false} ZerosNoZero(s: seq<Byte>, e: seq<Byte>)
    requires NoZero(e)
    ensures Zeros(s + e) == Zeros(s)
  {
    if e == [] {
      assert s + e == s;
    } else {
      var n := |e| - 1;
      ZerosNoZero(s, e[..n]);
      ZerosPush(s + e[..n], e[n]);
      assert s + e == (s + e[..n]) + [e[n]];
    }
  }

  lemma ZeroCounts(s: seq<Byte>, u: seq<Byte>, v: seq<Byte>, w: seq<Byte>)
    requires Zeros(u) == Zeros(s) + [|s|] && Zeros(v) == Zeros(u) && Zeros(w) == Zeros(v) + [|v|]
    ensures |Zeros(w)| == |Zeros(s)| + 2
  {}

  lemma ZerosWrapped(s: seq<Byte>, e: seq<Byte>)
    requires NoZero(e)
    ensures |Zeros(Push(s, e))| == |Zeros(s)| + 2
  {
    var u := s + [0];
    var v := u + e;
    ZerosPush(s, 0);
    ZerosNoZero(u, e);
    ZerosPush(v, 0);
    ZeroCounts(s, u, v, v + [0]);
  }

  lemma NoNewPair(s: seq<Byte>, t: seq<Byte>)
    requires |Zeros(s + t)| / 2 == |Zeros(s)| / 2
    ensures AllFrames(s + t) == AllFrames(s)
  {
    FramesAppend(s, t, |Zeros(s)| / 2);
  }

  /** A zero that completes a pair hands out what came since the zero before it, if that is not empty. */
  lemma NewPair(s: seq<Byte>, p: nat)
    requires |Zeros(s)| == 2 * p + 1
    ensures After(s, 2 * p + 1) <= |s|
    ensures var seg := s[After(s, 2 * p + 1)..];
      AllFrames(s + [0]) == AllFrames(s) + (if seg == [] then [] else [seg])
  {
    ZerosPush(s, 0);
    FramesAppend(s, [0], p);
    NewSegment(s, p);
    OneMoreFrame(s + [0], p);
  }

  lemma OneMoreFrame(t: seq<Byte>, p: nat)
    requires |Zeros(t)| == 2 * p + 2
    ensures AllFrames(t) == Frames(t, p) + (if Segment(t, p) == [] then [] else [Segment(t, p)])
  {}

  lemma NewSegment(s: seq<Byte>, p: nat)
    requires |Zeros(s)| == 2 * p + 1 && Zeros(s + [0]) == Zeros(s) + [|s|]
    ensures After(s, 2 * p + 1) <= |s| && Segment(s + [0], p) == s[After(s, 2 * p + 1)..]
  {
    ZerosBounds(s, 2 * p + 1);
  }

  /** Bytes other than zero complete nothing. */
  lemma AppendNonzero(u: seq<Byte>, e: seq<Byte>)
    requires NoZero(e)
    ensures AllFrames(u + e) == AllFrames(u) && Zeros(u + e) == Zeros(u)
  {
    ZerosNoZero(u, e);
    NoNewPair(u, e);
  }

  /** A zero that opens a pair completes nothing. */
  lemma AppendOpening(v: seq<Byte>, w: seq<Byte>, p: nat)
    requires |Zeros(v)| == 2 * p && w == v + [0]
    ensures AllFrames(w) == AllFrames(v) && |Zeros(w)| == |Zeros(v)| + 1
  {
    ZerosPush(v, 0);
    NoNewPair(v, [0]);
  }

  /** After an even number of zeros the next wrapped frame is seen. */
  lemma InStep(s: seq<Byte>, e: seq<Byte>)
    requires |Zeros(s)| % 2 == 0 && e != [] && NoZero(e)
    ensures AllFrames(Push(s, e)) == AllFrames(s) + [e]
  {
    var u, p := s + [0], |Zeros(s)| / 2;
    AppendOpening(s, u, p);
    AppendNonzero(u, e);
    ClosingFrame(s, u, e, u + e, p);
  }

  lemma ClosingFrame(s: seq<Byte>, u: seq<Byte>, e: seq<Byte>, v: seq<Byte>, p: nat)
    requires u == s + [0] && v == u + e && e != [] && Zeros(v) == Zeros(u) && |Zeros(u)| == 2 * p + 1
    ensures AllFrames(v + [0]) == AllFrames(v) + [e]
  {
    ZerosPush(s, 0);
    NewPair(v, p);
    assert After(v, 2 * p + 1) == |u|;
    assert v[|u|..] == e;
  }

  /** After an odd number of zeros it is not: its opening delimiter closes a segment, the next one stays open. */
  lemma OutOfStep(s: seq<Byte>, e: seq<Byte>)
    requires |Zeros(s)| % 2 == 1 && NoZero(e)
    ensures AllFrames(Push(s, e)) == AllFrames(s + [0])
  {
    var u := s + [0];
    var v := u + e;
    OneMoreZero(s);
    AppendNonzero(u, e);
    var p := |Zeros(s)| / 2 + 1;
    assert |Zeros(v)| == 2 * p;
    AppendOpening(v, Push(s, e), p);
  }

  lemma OneMoreZero(s: seq<Byte>)
    ensures |Zeros(s + [0])| == |Zeros(s)| + 1
  {
    ZerosPush(s, 0);
  }

  /** A delimiter right after a delimiter adds nothing. */
  lemma EmptySegment(s: seq<Byte>)
    requires |Zeros(s)| % 2 == 1 && s[|s| - 1] == 0
    ensures AllFrames(s + [0]) == AllFrames(s)
  {
    NewPair(s, |Zeros(s)| / 2);
    assert Zeros(s)[|Zeros(s)| - 1] == |s| - 1;
  }

  lemma {:induction false} ZerosWire(prefix: seq<Byte>, es: seq<seq<Byte>>)
    requires Wrappable(es)
    ensures |Zeros(Wire(prefix, es))| == |Zeros(prefix)| + 2 * |es|
    ensures es != [] ==> Wire(prefix, es) != [] && Wire(prefix, es)[|Wire(prefix, es)| - 1] == 0
  {
    if es != [] {
      var before := es[..|es| - 1];
      ZerosWire(prefix, before);
      ZerosWrapped(Wire(prefix, before), es[|es| - 1]);
    }
  }

  /** After a prefix with an even number of zeros the buffer sees exactly the frames sent, in order. */
  lemma {:induction false} EvenPrefixSeesAll(prefix: seq<Byte>, es: seq<seq<Byte>>)
    requires |Zeros(prefix)| % 2 == 0 && Wrappable(es)
    ensures AllFrames(Wire(prefix, es)) == AllFrames(prefix) + es
  {
    if es == [] {
      assert AllFrames(prefix) + es == AllFrames(prefix);
    } else {
      var n := |es| - 1;
      EvenPrefixSeesAll(prefix, es[..n]);
      ZerosWire(prefix, es[..n]);
      InStep(Wire(prefix, es[..n]), es[n]);
      assert es == es[..n] + [es[n]];
    }
  }

  /**
    After a prefix with an odd number of zeros it sees none of them, however many are sent: the first
    delimiter closes whatever the prefix left open, and that is all that ever comes out.
   */
  lemma {:induction false} OddPrefixSeesNone(prefix: seq<Byte>, es: seq<seq<Byte>>)
    requires |Zeros(prefix)| % 2 == 1 && Wrappable(es) && es != []
    ensures AllFrames(Wire(prefix, es)) == AllFrames(prefix + [0])
  {
    var n := |es| - 1;
    var s := Wire(prefix, es[..n]);
    ZerosWire(prefix, es[..n]);
    OutOfStep(s, es[n]);
    if n > 0 {
      OddPrefixSeesNone(prefix, es[..n]);
      EmptySegment(s);
    }
  }

  // ----- The other segmentation: every nonempty run that a zero closes -----

  /** The zero at `i` closes a nonempty run. */
  predicate Closes(s: seq<Byte>, i: nat)
    requires i < |s|
  {
    s[i] == 0 && RunBefore(s, i) > 0
  }

  /** The run that ends just before `i`. */
  function RunAt(s: seq<Byte>, i: nat): seq<Byte>
    requires i <= |s|
  {
    s[i - RunBefore(s, i)..i]
  }

  function ClosedRuns(s: seq<Byte>, n: nat): seq<seq<Byte>>
    requires n <= |s|
  {
    if n == 0 then []
    else ClosedRuns(s, n - 1) + (if Closes(s, n - 1) then [RunAt(s, n - 1)] else [])
  }

  /** Every frame the buffer extracts is a run that a zero closes. */
  lemma SegmentIsClosedRun(s: seq<Byte>, p: nat) returns (i: nat)
    requires 2 * p + 1 < |Zeros(s)| && Segment(s, p) != []
    ensures i < |s| && Closes(s, i) && RunAt(s, i) == Segment(s, p) && RunBefore(s, i) < i
  {
    i := ZeroOrEnd(s, 2 * p + 1);
    ZerosGap(s, 2 * p);
    ZerosGap(s, 2 * p + 1);
    RunBeforeUnique(s, i, i - After(s, 2 * p + 1));
  }

  lemma {:induction false} FramesAreClosedRuns(s: seq<Byte>, p: nat, k: nat) returns (i: nat)
    requires 2 * p <= |Zeros(s)| && k < |Frames(s, p)|
    ensures i < |s| && Closes(s, i) && RunAt(s, i) == Frames(s, p)[k] && RunBefore(s, i) < i
  {
    if k < |Frames(s, p - 1)| {
      i := FramesAreClosedRuns(s, p - 1, k);
    } else {
      i := SegmentIsClosedRun(s, p - 1);
    }
  }
}
