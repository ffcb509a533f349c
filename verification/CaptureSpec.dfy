/**
  Which chunks a capture may keep, said of the whole stream at once.

  `s` is everything after the handle bytes, `ends[k]` is where chunk `k` ends in it, and `kept[k]` says
  that every frame chunk `k` closes is good. A frame is a nonempty run that a zero closes.
 */
module CaptureSpec {
  import opened Bytes
  import opened FrameStream
  import opened FrameOnWire

  const MAX_FRAME_BYTES: nat := 8192

  const MAX_HELD_CHUNKS: nat := 256

  function Start(s: seq<Byte>, i: nat): nat
    requires i <= |s|
  {
    i - RunBefore(s, i)
  }

  predicate Below(idx: seq<nat>, n: nat) { forall i :: 0 <= i < |idx| ==> idx[i] < n }

  /** The chunks before chunk `k` that left open the frame starting at `a` and were not dropped. */
  function HeldFor(ends: seq<nat>, kept: seq<bool>, a: nat, k: nat): (r: seq<nat>)
    requires k <= |ends| == |kept|
    ensures Below(r, k)
  {
    if k == 0 then []
    else HeldFor(ends, kept, a, k - 1) + (if ends[k - 1] > a && kept[k - 1] then [k - 1] else [])
  }

  /** The frame starting at `a` was still open at the end of a chunk with the bound already held for it. */
  predicate Crowded(ends: seq<nat>, kept: seq<bool>, a: nat, i: nat)
    requires |ends| == |kept|
  {
    exists k :: 0 <= k < |ends| && a < ends[k] <= i && |HeldFor(ends, kept, a, k)| >= MAX_HELD_CHUNKS
  }

  /** The frame that the zero at `i` closes may be kept. */
  predicate Good(s: seq<Byte>, ends: seq<nat>, kept: seq<bool>, i: nat)
    requires i < |s| && |ends| == |kept|
  {
    var a := Start(s, i);
    i - a <= MAX_FRAME_BYTES && !FrameExcluded(s[a..i]) && !Crowded(ends, kept, a, i)
  }

  /** Every frame closed in `[lo, |s|)` is good. */
  predicate Clean(s: seq<Byte>, ends: seq<nat>, kept: seq<bool>, lo: nat)
    requires |ends| == |kept|
  {
    forall i :: lo <= i < |s| && Closes(s, i) ==> Good(s, ends, kept, i)
  }

  function Ends(bodies: seq<seq<Byte>>): (r: seq<nat>)
    ensures |r| == |bodies|
  {
    if bodies == [] then [] else Ends(bodies[..|bodies| - 1]) + [|Flatten(bodies)|]
  }

  function Kept(bodies: seq<seq<Byte>>): (r: seq<bool>)
    ensures |r| == |bodies|
  {
    if bodies == [] then []
    else
      var before := bodies[..|bodies| - 1];
      var kept := Kept(before);
      kept + [Clean(Flatten(bodies), Ends(before), kept, |Flatten(before)|)]
  }

  /** The zero at `i` closes the frame that was open where chunk `k` ended. */
  predicate ClosesFor(s: seq<Byte>, ends: seq<nat>, k: nat, i: nat)
    requires k < |ends| && i < |s|
  {
    Closes(s, i) && Start(s, i) < ends[k] <= i
  }

  /** Chunk `k` may be kept: the frames it closes are good, and so is the one it leaves open, which has closed. */
  predicate Cleared(s: seq<Byte>, ends: seq<nat>, kept: seq<bool>, k: nat)
    requires k < |ends| == |kept| && ends[k] <= |s|
  {
    && kept[k]
    && (RunBefore(s, ends[k]) == 0
        || exists i :: ends[k] <= i < |s| && ClosesFor(s, ends, k, i) && Good(s, ends, kept, i))
  }

  predicate Ordered(s: seq<Byte>, ends: seq<nat>, kept: seq<bool>) {
    && |ends| == |kept|
    && (forall j, k :: 0 <= j < k < |ends| ==> ends[j] <= ends[k])
    && (forall k :: 0 <= k < |ends| ==> ends[k] <= |s|)
  }

  function ClearedUpTo(s: seq<Byte>, ends: seq<nat>, kept: seq<bool>, n: nat): (r: seq<nat>)
    requires Ordered(s, ends, kept) && n <= |ends|
    ensures Below(r, n)
  {
    if n == 0 then []
    else ClearedUpTo(s, ends, kept, n - 1) + (if Cleared(s, ends, kept, n - 1) then [n - 1] else [])
  }

  lemma {:induction false} EndsOrdered(bodies: seq<seq<Byte>>)
    ensures Ordered(Flatten(bodies), Ends(bodies), Kept(bodies))
  {
    if bodies != [] {
      EndsOrdered(bodies[..|bodies| - 1]);
    }
  }

  /** The chunks of a whole capture that may be kept, oldest first. */
  function Keepable(bodies: seq<seq<Byte>>): seq<nat> {
    EndsOrdered(bodies);
    ClearedUpTo(Flatten(bodies), Ends(bodies), Kept(bodies), |bodies|)
  }

  // ----- Growing the stream leaves earlier verdicts alone -----

  lemma StartStable(s: seq<Byte>, t: seq<Byte>, i: nat)
    requires i <= |s|
    ensures RunBefore(s + t, i) == RunBefore(s, i)
  {
    assert (s + t)[..i] == s[..i];
    RunBeforePrefix(s + t, s, i);
  }

  lemma CloseStable(s: seq<Byte>, t: seq<Byte>, i: nat)
    requires i < |s|
    ensures Closes(s + t, i) == Closes(s, i)
  {
    StartStable(s, t, i);
  }

  lemma {:induction false} HeldStable(ends: seq<nat>, kept: seq<bool>, e: seq<nat>, v: seq<bool>, a: nat, k: nat)
    requires |ends| == |kept| && |e| == |v| && k <= |ends|
    ensures HeldFor(ends + e, kept + v, a, k) == HeldFor(ends, kept, a, k)
  {
    if k > 0 {
      HeldStable(ends, kept, e, v, a, k - 1);
    }
  }

  /** Chunks that end after `i` do not crowd a frame closed at `i`. */
  lemma CrowdedStable(ends: seq<nat>, kept: seq<bool>, e: seq<nat>, v: seq<bool>, a: nat, i: nat)
    requires |ends| == |kept| && |e| == |v| && forall k :: 0 <= k < |e| ==> e[k] > i
    ensures Crowded(ends + e, kept + v, a, i) == Crowded(ends, kept, a, i)
  {
    if Crowded(ends, kept, a, i) {
      var k :| 0 <= k < |ends| && a < ends[k] <= i && |HeldFor(ends, kept, a, k)| >= MAX_HELD_CHUNKS;
      HeldStable(ends, kept, e, v, a, k);
      assert (ends + e)[k] == ends[k];
    }
    if Crowded(ends + e, kept + v, a, i) {
      var k :| 0 <= k < |ends + e| && a < (ends + e)[k] <= i && |HeldFor(ends + e, kept + v, a, k)| >= MAX_HELD_CHUNKS;
      assert k < |ends|;
      HeldStable(ends, kept, e, v, a, k);
    }
  }

  lemma GoodStable(s: seq<Byte>, t: seq<Byte>, ends: seq<nat>, kept: seq<bool>, e: seq<nat>, v: seq<bool>, i: nat)
    requires i < |s| && |ends| == |kept| && |e| == |v| && forall k :: 0 <= k < |e| ==> e[k] > i
    ensures Good(s + t, ends + e, kept + v, i) == Good(s, ends, kept, i)
  {
    var a := Start(s, i);
    StartStable(s, t, i);
    assert (s + t)[a..i] == s[a..i];
    CrowdedStable(ends, kept, e, v, a, i);
  }
}
