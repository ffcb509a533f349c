/** What the filter's specification means for a whole capture: nothing lost or repeated, nothing leaked. */
module CaptureTheorems {
  import opened Wrappers
  import opened Bytes
  import opened Gfdi
  import opened FrameStream
  import opened FrameOnWire
  import opened CaptureSpec
  import opened Capture
  import Cobs

  // ----- Exactness over whole captures -----

  /** A new filter fed the first `n` chunks in turn. */
  function FeedUpTo<T>(bodies: seq<seq<Byte>>, vals: seq<T>, n: nat): Filter<T>
    requires n <= |bodies| == |vals|
  {
    if n == 0 then Filter([], false, [], true, [])
    else OnChunk(FeedUpTo(bodies, vals, n - 1), bodies[n - 1], vals[n - 1])
  }

  function FeedAll<T>(bodies: seq<seq<Byte>>, vals: seq<T>): Filter<T>
    requires |bodies| == |vals|
  {
    FeedUpTo(bodies, vals, |bodies|)
  }

  lemma OneMore<T>(s: seq<T>, n: nat)
    requires 0 < n <= |s|
    ensures s[..n] == s[..n - 1] + [s[n - 1]]
  {}

  lemma {:induction false} FeedUpToFollows<T>(bodies: seq<seq<Byte>>, vals: seq<T>, n: nat)
    requires n <= |bodies| == |vals|
    ensures Follows(bodies[..n], vals[..n], FeedUpTo(bodies, vals, n))
  {
    if n == 0 {
      FollowsNothing(bodies[..n], vals[..n], FeedUpTo(bodies, vals, n));
    } else {
      FeedUpToFollows(bodies, vals, n - 1);
      OneMore(bodies, n);
      OneMore(vals, n);
      FollowsFeed(bodies[..n - 1], vals[..n - 1], FeedUpTo(bodies, vals, n - 1), bodies[n - 1], vals[n - 1],
                  bodies[..n], vals[..n], FeedUpTo(bodies, vals, n));
    }
  }

  lemma FeedAllFollows<T>(bodies: seq<seq<Byte>>, vals: seq<T>)
    requires |bodies| == |vals|
    ensures Follows(bodies, vals, FeedAll(bodies, vals))
  {
    FeedUpToFollows(bodies, vals, |bodies|);
    assert bodies[..|bodies|] == bodies && vals[..|vals|] == vals;
  }

  /**
    The values released by a whole capture are exactly those of the chunks that may be kept, in order; memory is
    bounded.
   */
  lemma CaptureExact<T>(bodies: seq<seq<Byte>>, vals: seq<T>)
    requires |bodies| == |vals|
    ensures var f := FeedAll(bodies, vals);
      && Below(Keepable(bodies), |vals|) && f.out == Pick(vals, Keepable(bodies))
      && |f.frame| <= MAX_FRAME_BYTES && |f.held| <= MAX_HELD_CHUNKS
      && (f.held != [] || f.tainted ==> f.frame != [])
  {
    FeedAllFollows(bodies, vals);
    FollowsMeans(bodies, vals, FeedAll(bodies, vals));
  }

  // ----- Conservation -----

  /** Chunk `k` of the capture may be kept. */
  predicate IsCleared(bodies: seq<seq<Byte>>, k: nat)
    requires k < |bodies|
  {
    EndsOrdered(bodies);
    Cleared(Flatten(bodies), Ends(bodies), Kept(bodies), k)
  }

  predicate Increasing(r: seq<nat>) { forall i, j :: 0 <= i < j < |r| ==> r[i] < r[j] }

  lemma {:induction false} ClearedUpToMembers(s: seq<Byte>, ends: seq<nat>, kept: seq<bool>, n: nat)
    requires Ordered(s, ends, kept) && n <= |ends|
    ensures var r := ClearedUpTo(s, ends, kept, n);
      && Increasing(r)
      && (forall k :: 0 <= k < n ==> (k in r <==> Cleared(s, ends, kept, k)))
  {
    if n > 0 {
      ClearedUpToMembers(s, ends, kept, n - 1);
      assert n - 1 !in ClearedUpTo(s, ends, kept, n - 1);
    }
  }

  /** Released chunks come out in the order they went in, none twice. */
  lemma ReleasedInOrder(bodies: seq<seq<Byte>>)
    ensures var r := Keepable(bodies);
      && Increasing(r)
      && (forall k :: 0 <= k < |bodies| ==> (k in r <==> IsCleared(bodies, k)))
  {
    EndsOrdered(bodies);
    ClearedUpToMembers(Flatten(bodies), Ends(bodies), Kept(bodies), |bodies|);
  }

  /** The ends and verdicts of the first chunks do not change as more arrive. */
  lemma {:induction false} HistoryGrows(bodies: seq<seq<Byte>>, more: seq<seq<Byte>>)
    ensures var all, n := bodies + more, |bodies|;
      && Flatten(all) == Flatten(bodies) + Flatten(more)
      && Ends(all)[..n] == Ends(bodies) && Kept(all)[..n] == Kept(bodies)
      && forall k :: n <= k < |all| ==> Ends(all)[k] >= |Flatten(bodies)|
  {
    FlattenAppend(bodies, more);
    if more == [] {
      assert bodies + more == bodies;
    } else {
      var m := |more| - 1;
      HistoryGrows(bodies, more[..m]);
      assert (bodies + more)[..|bodies + more| - 1] == bodies + more[..m];
    }
  }

  lemma GoodGrows(s: seq<Byte>, s': seq<Byte>, ends: seq<nat>, ends': seq<nat>, kept: seq<bool>, kept': seq<bool>,
                  i: nat)
    requires |ends| == |kept| && |ends'| == |kept'| && i < |s| && s <= s' && ends <= ends' && kept <= kept'
    requires forall k :: |ends| <= k < |ends'| ==> ends'[k] > i
    ensures Good(s', ends', kept', i) == Good(s, ends, kept, i)
  {
    var n := |ends|;
    GoodStable(s, s'[|s|..], ends, kept, ends'[n..], kept'[n..], i);
    assert s' == s + s'[|s|..] && ends' == ends + ends'[n..] && kept' == kept + kept'[n..];
  }

  lemma VerdictsGrow(bodies: seq<seq<Byte>>, more: seq<seq<Byte>>, i: nat)
    requires i < |Flatten(bodies)|
    ensures |Flatten(bodies)| <= |Flatten(bodies + more)|
    ensures Good(Flatten(bodies + more), Ends(bodies + more), Kept(bodies + more), i) ==
      Good(Flatten(bodies), Ends(bodies), Kept(bodies), i)
  {
    HistoryGrows(bodies, more);
    GoodGrows(Flatten(bodies), Flatten(bodies + more), Ends(bodies), Ends(bodies + more),
              Kept(bodies), Kept(bodies + more), i);
  }

  lemma ChunkGrows(bodies: seq<seq<Byte>>, more: seq<seq<Byte>>, k: nat)
    requires k < |bodies|
    ensures Ends(bodies + more)[k] == Ends(bodies)[k] <= |Flatten(bodies)|
    ensures Kept(bodies + more)[k] == Kept(bodies)[k]
    ensures RunBefore(Flatten(bodies), Ends(bodies)[k]) <= Ends(bodies)[k]
    ensures |Flatten(bodies + more)| >= |Flatten(bodies)|
    ensures RunBefore(Flatten(bodies + more), Ends(bodies)[k]) == RunBefore(Flatten(bodies), Ends(bodies)[k])
  {
    HistoryGrows(bodies, more);
    EndsOrdered(bodies);
    assert Ends(bodies + more)[..|bodies|][k] == Ends(bodies)[k];
    assert Kept(bodies + more)[..|bodies|][k] == Kept(bodies)[k];
    StartStable(Flatten(bodies), Flatten(more), Ends(bodies)[k]);
  }

  lemma CloserGrows(bodies: seq<seq<Byte>>, more: seq<seq<Byte>>, k: nat, i: nat)
    requires k < |bodies| && i < |Flatten(bodies)|
    ensures |Flatten(bodies + more)| >= |Flatten(bodies)|
    ensures ClosesFor(Flatten(bodies + more), Ends(bodies + more), k, i) ==
      ClosesFor(Flatten(bodies), Ends(bodies), k, i)
  {
    HistoryGrows(bodies, more);
    ChunkGrows(bodies, more, k);
    CloseStable(Flatten(bodies), Flatten(more), i);
    StartStable(Flatten(bodies), Flatten(more), i);
  }

  /** A released chunk stays released, whatever comes after it. */
  lemma ReleasedForever(bodies: seq<seq<Byte>>, more: seq<seq<Byte>>, k: nat)
    requires k < |bodies| && IsCleared(bodies, k)
    ensures IsCleared(bodies + more, k)
  {
    var s, ends := Flatten(bodies), Ends(bodies);
    EndsOrdered(bodies + more);
    ChunkGrows(bodies, more, k);
    if RunBefore(s, ends[k]) != 0 {
      var i :| ends[k] <= i < |s| && ClosesFor(s, ends, k, i) && Good(s, ends, Kept(bodies), i);
      CloserGrows(bodies, more, k, i);
      VerdictsGrow(bodies, more, i);
    }
  }

  /** The filter still waits to decide on chunk `k`: the frame it leaves open is open yet, and within the bounds. */
  predicate IsPending(bodies: seq<seq<Byte>>, k: nat)
    requires k < |bodies|
  {
    var s, a := Flatten(bodies), Start(Flatten(bodies), |Flatten(bodies)|);
    && Kept(bodies)[k] && a < Ends(bodies)[k]
    && |s| - a <= MAX_FRAME_BYTES && !Crowded(Ends(bodies), Kept(bodies), a, |s|)
  }

  lemma {:induction false} HeldForIncreasing(ends: seq<nat>, kept: seq<bool>, a: nat, n: nat)
    requires n <= |ends| == |kept|
    ensures Increasing(HeldFor(ends, kept, a, n))
  {
    if n > 0 {
      HeldForIncreasing(ends, kept, a, n - 1);
    }
  }

  lemma {:induction false} HeldForHas(ends: seq<nat>, kept: seq<bool>, a: nat, n: nat, k: nat)
    requires k < n <= |ends| == |kept|
    ensures k in HeldFor(ends, kept, a, n) <==> a < ends[k] && kept[k]
  {
    if k < n - 1 {
      HeldForHas(ends, kept, a, n - 1, k);
    } else {
      assert n - 1 !in HeldFor(ends, kept, a, n - 1);
    }
  }

  /** The chunks the filter still waits for, oldest first. */
  function PendingChunks(bodies: seq<seq<Byte>>): (r: seq<nat>)
    ensures Below(r, |bodies|)
  {
    var s := Flatten(bodies);
    HeldFor(Ends(bodies), Kept(bodies), Start(s, |s|), |bodies|)
  }

  /**
    While the open frame is within its bounds, the filter holds exactly the pending chunks; past them, none is
    pending.
   */
  lemma HeldIsPending<T>(bodies: seq<seq<Byte>>, vals: seq<T>)
    requires |bodies| == |vals|
    ensures var f, r := FeedAll(bodies, vals), PendingChunks(bodies);
      && (!f.tainted ==> f.held == Pick(vals, r))
      && Increasing(r)
      && (forall k :: 0 <= k < |bodies| ==> (IsPending(bodies, k) <==> !f.tainted && k in r))
  {
    var s := Flatten(bodies);
    FeedAllFollows(bodies, vals);
    HeldForIncreasing(Ends(bodies), Kept(bodies), Start(s, |s|), |bodies|);
    TaintedMeans(bodies, vals, FeedAll(bodies, vals));
    forall k | 0 <= k < |bodies|
      ensures IsPending(bodies, k) <==> !FeedAll(bodies, vals).tainted && k in PendingChunks(bodies)
    {
      HeldForHas(Ends(bodies), Kept(bodies), Start(s, |s|), |bodies|, k);
    }
  }

  lemma TaintedMeans<T>(bodies: seq<seq<Byte>>, vals: seq<T>, f: Filter<T>)
    requires Follows(bodies, vals, f)
    ensures var s := Flatten(bodies); var a := Start(s, |s|);
      && (f.tainted <==> |s| - a > MAX_FRAME_BYTES || Crowded(Ends(bodies), Kept(bodies), a, |s|))
      && (!f.tainted ==> f.held == Pick(vals, PendingChunks(bodies)))
  {
    var p := PastOf(bodies, vals);
    assert TaintAgrees(p, f) && HeldAgrees(p, f);
  }

  /** No chunk is both released and pending. */
  lemma PendingNotCleared(bodies: seq<seq<Byte>>, k: nat)
    requires k < |bodies| && IsPending(bodies, k)
    ensures !IsCleared(bodies, k)
  {
    var s, e := Flatten(bodies), Ends(bodies)[k];
    EndsOrdered(bodies);
    RunBeforeIsRun(s, |s|);
    StillOpen(s, e, |s|);
  }

  /** A chunk that is neither released nor pending is dropped for good. */
  lemma DroppedForever(bodies: seq<seq<Byte>>, more: seq<seq<Byte>>, k: nat)
    requires k < |bodies| && !IsCleared(bodies, k) && !IsPending(bodies, k)
    ensures !IsCleared(bodies + more, k)
  {
    var s, ends, all := Flatten(bodies), Ends(bodies), bodies + more;
    var s' := Flatten(all);
    EndsOrdered(all);
    ChunkGrows(bodies, more, k);
    if IsCleared(all, k) && RunBefore(s, ends[k]) != 0 {
      var j :| Ends(all)[k] <= j < |s'| && ClosesFor(s', Ends(all), k, j) && Good(s', Ends(all), Kept(all), j);
      if j < |s| {
        CloserGrows(bodies, more, k, j);
        VerdictsGrow(bodies, more, j);
      } else {
        DoomedFrame(bodies, more, j);
      }
    }
  }

  /** A frame already past a bound when `more` arrives is not good when it closes. */
  lemma DoomedFrame(bodies: seq<seq<Byte>>, more: seq<seq<Byte>>, j: nat)
    requires |Flatten(bodies)| <= j < |Flatten(bodies + more)|
    requires Start(Flatten(bodies + more), j) < |Flatten(bodies)|
    ensures Start(Flatten(bodies + more), j) == Start(Flatten(bodies), |Flatten(bodies)|)
    ensures var s, a := Flatten(bodies), Start(Flatten(bodies), |Flatten(bodies)|);
      |s| - a > MAX_FRAME_BYTES || Crowded(Ends(bodies), Kept(bodies), a, |s|) ==>
        !Good(Flatten(bodies + more), Ends(bodies + more), Kept(bodies + more), j)
  {
    HistoryGrows(bodies, more);
    OpenAcross(Flatten(bodies), Flatten(more), j);
    var s, a := Flatten(bodies), Start(Flatten(bodies), |Flatten(bodies)|);
    if |s| - a > MAX_FRAME_BYTES || Crowded(Ends(bodies), Kept(bodies), a, |s|) {
      Doomed(s, Flatten(bodies + more), Ends(bodies), Ends(bodies + more), Kept(bodies), Kept(bodies + more), j);
    }
  }

  lemma Doomed(s: seq<Byte>, s': seq<Byte>, ends: seq<nat>, ends': seq<nat>, kept: seq<bool>, kept': seq<bool>, j: nat)
    requires |ends| == |kept| && |ends'| == |kept'| && |s| <= j < |s'| && ends <= ends' && kept <= kept'
    requires Start(s', j) == Start(s, |s|)
    requires |s| - Start(s, |s|) > MAX_FRAME_BYTES || Crowded(ends, kept, Start(s, |s|), |s|)
    ensures !Good(s', ends', kept', j)
  {
    var n := |ends|;
    assert ends' == ends + ends'[n..] && kept' == kept + kept'[n..];
    CrowdedStays(ends, kept, ends'[n..], kept'[n..], Start(s, |s|), |s|, j);
  }

  lemma OpenAcross(s: seq<Byte>, t: seq<Byte>, j: nat)
    requires |s| <= j <= |s + t| && Start(s + t, j) < |s|
    ensures Start(s + t, j) == Start(s, |s|)
  {
    StartStable(s, t, |s|);
    RunBeforeIsRun(s + t, j);
    RunGrows(s + t, |s|, j);
  }

  lemma CrowdedStays(ends: seq<nat>, kept: seq<bool>, e: seq<nat>, v: seq<bool>, a: nat, i: nat, j: nat)
    requires |ends| == |kept| && |e| == |v| && i <= j
    ensures Crowded(ends, kept, a, i) ==> Crowded(ends + e, kept + v, a, j)
  {
    if Crowded(ends, kept, a, i) {
      var k :| 0 <= k < |ends| && a < ends[k] <= i && |HeldFor(ends, kept, a, k)| >= MAX_HELD_CHUNKS;
      HeldStable(ends, kept, e, v, a, k);
      assert (ends + e)[k] == ends[k];
    }
  }

  /** Where in the stream chunk `k` starts. */
  function ChunkStart(bodies: seq<seq<Byte>>, k: nat): nat
    requires k < |bodies|
  {
    |Flatten(bodies[..k])|
  }

  lemma Upto(bodies: seq<seq<Byte>>, k: nat)
    requires k < |bodies|
    ensures bodies[..k + 1] + bodies[k + 1..] == bodies && bodies[..k + 1] == bodies[..k] + [bodies[k]]
  {}

  /** The end and the verdict of chunk `k` were settled when it arrived. */
  lemma SettledOnArrival(bodies: seq<seq<Byte>>, k: nat)
    requires k < |bodies|
    ensures Ends(bodies)[k] == Ends(bodies[..k + 1])[k] && Kept(bodies)[k] == Kept(bodies[..k + 1])[k]
    ensures |Flatten(bodies[..k + 1])| <= |Flatten(bodies)|
  {
    Upto(bodies, k);
    HistoryGrows(bodies[..k + 1], bodies[k + 1..]);
    assert Ends(bodies)[k] == Ends(bodies)[..k + 1][k];
    assert Kept(bodies)[k] == Kept(bodies)[..k + 1][k];
  }

  lemma LastChunk(before: seq<seq<Byte>>, body: seq<Byte>, all: seq<seq<Byte>>)
    requires all == before + [body]
    ensures Flatten(all) == Flatten(before) + body
    ensures Ends(all)[|before|] == |Flatten(before)| + |body|
    ensures Kept(all)[|before|] <==> Clean(Flatten(all), Ends(before), Kept(before), |Flatten(before)|)
  {
    assert all[..|all| - 1] == before;
  }

  lemma OneChunk(bodies: seq<seq<Byte>>, k: nat)
    requires k < |bodies|
    ensures ChunkStart(bodies, k) <= Ends(bodies)[k] == ChunkStart(bodies, k) + |bodies[k]| <= |Flatten(bodies)|
    ensures Kept(bodies)[k] <==>
      Clean(Flatten(bodies[..k + 1]), Ends(bodies[..k]), Kept(bodies[..k]), ChunkStart(bodies, k))
  {
    SettledOnArrival(bodies, k);
    Upto(bodies, k);
    LastChunk(bodies[..k], bodies[k], bodies[..k + 1]);
  }

  // ----- Safety -----

  lemma CleanMeansGood(s: seq<Byte>, t: seq<Byte>, ends: seq<nat>, kept: seq<bool>, lo: nat, i: nat)
    requires |ends| == |kept| && lo <= i < |s| && Clean(s, ends, kept, lo) && Closes(s + t, i)
    ensures !FrameExcluded(RunAt(s + t, i))
  {
    CloseStable(s, t, i);
    StartStable(s, t, i);
    assert Good(s, ends, kept, i);
    assert RunAt(s + t, i) == s[Start(s, i)..i];
  }

  lemma KeptMeansGood(bodies: seq<seq<Byte>>, k: nat, i: nat)
    requires k < |bodies| && ChunkStart(bodies, k) <= i < Ends(bodies)[k] <= |Flatten(bodies)|
    requires Kept(bodies)[k] && Closes(Flatten(bodies), i)
    ensures !FrameExcluded(RunAt(Flatten(bodies), i))
  {
    var upto, rest := bodies[..k + 1], bodies[k + 1..];
    OneChunk(bodies, k);
    FlattenAppend(upto, rest);
    assert upto + rest == bodies;
    UptoEnds(bodies, k);
    CleanMeansGood(Flatten(upto), Flatten(rest), Ends(bodies[..k]), Kept(bodies[..k]), ChunkStart(bodies, k), i);
  }

  lemma UptoEnds(bodies: seq<seq<Byte>>, k: nat)
    requires k < |bodies|
    ensures |Flatten(bodies[..k + 1])| == ChunkStart(bodies, k) + |bodies[k]|
  {
    assert bodies[..k + 1][..k] == bodies[..k];
  }

  /** The zero that closes the frame left open at `e` is the first zero from there on. */
  lemma OneCloser(s: seq<Byte>, e: nat, i: nat, j: nat)
    requires e <= i < |s| && Start(s, i) < e && Closes(s, i)
    requires e <= j < |s| && Start(s, j) < e && Closes(s, j)
    ensures i == j
  {
    RunBeforeIsRun(s, i);
    RunBeforeIsRun(s, j);
  }

  /** A released chunk has no byte of a frame that must be kept out, nor its closing delimiter. */
  lemma ExcludedNeverReleased(bodies: seq<seq<Byte>>, i: nat, k: nat)
    requires i < |Flatten(bodies)| && Closes(Flatten(bodies), i) && FrameExcluded(RunAt(Flatten(bodies), i))
    requires k < |bodies| && IsCleared(bodies, k)
    ensures Ends(bodies)[k] <= Start(Flatten(bodies), i) || i < ChunkStart(bodies, k)
  {
    var s, ends := Flatten(bodies), Ends(bodies);
    EndsOrdered(bodies);
    OneChunk(bodies, k);
    if ChunkStart(bodies, k) <= i && Start(s, i) < ends[k] {
      if i < ends[k] {
        KeptMeansGood(bodies, k, i);
      } else {
        StillOpen(s, ends[k], i);
        var j :| ends[k] <= j < |s| && ClosesFor(s, ends, k, j) && Good(s, ends, Kept(bodies), j);
        OneCloser(s, ends[k], i, j);
      }
    }
  }

  lemma StillOpen(s: seq<Byte>, e: nat, i: nat)
    requires i <= |s| && Start(s, i) < e <= i
    ensures RunBefore(s, e) > 0
  {
    RunBeforeIsRun(s, i);
  }

  /** A delimited, zero-free run inside any stream is a frame that the zero after it closes. */
  lemma DelimitedRun(u: seq<Byte>, e: seq<Byte>, w: seq<Byte>)
    requires e != [] && NoZero(e)
    ensures var s, i := u + [0] + e + [0] + w, |u| + 1 + |e|;
      Closes(s, i) && Start(s, i) == |u| + 1 && RunAt(s, i) == e
  {
    var s, i := u + [0] + e + [0] + w, |u| + 1 + |e|;
    assert forall k :: 0 <= k < |e| ==> s[|u| + 1 + k] == e[k];
    assert s[|u| + 1..i] == e;
    assert forall k :: |u| + 1 <= k < i ==> s[k] == e[k - |u| - 1];
    RunBeforeUnique(s, i, |e|);
  }

  lemma DelimitedIs(s: seq<Byte>, u: seq<Byte>, e: seq<Byte>, w: seq<Byte>, i: nat)
    requires e != [] && NoZero(e) && s == u + [0] + e + [0] + w && i == |u| + 1 + |e|
    ensures i < |s| && Closes(s, i) && Start(s, i) == |u| + 1 && RunAt(s, i) == e
  {
    DelimitedRun(u, e, w);
  }

  lemma DelimitedNeverReleased(bodies: seq<seq<Byte>>, u: seq<Byte>, e: seq<Byte>, w: seq<Byte>, k: nat)
    requires e != [] && NoZero(e) && FrameExcluded(e) && Flatten(bodies) == u + [0] + e + [0] + w
    requires k < |bodies| && k in Keepable(bodies)
    ensures ChunkStart(bodies, k) + |bodies[k]| <= |u| + 1 || |u| + 1 + |e| < ChunkStart(bodies, k)
  {
    var i := |u| + 1 + |e|;
    DelimitedIs(Flatten(bodies), u, e, w, i);
    ReleasedInOrder(bodies);
    ExcludedNeverReleased(bodies, i, k);
    OneChunk(bodies, k);
  }

  /**
    Safety through the whole stack. Whatever else crosses the link before and after it, and however the
    stream is cut into chunks, no released chunk holds a byte of a frame that carries identity or
    acknowledges one that does, nor the delimiter that closes it.
   */
  lemma IdentityNeverReleased(bodies: seq<seq<Byte>>, u: seq<Byte>, t: Word, payload: seq<Byte>, w: seq<Byte>, k: nat)
    requires GfdiFrame(t, None, payload).CarriesIdentity()
    requires Flatten(bodies) == u + WrapCobs(BuildFrame(t, payload)) + w
    requires k < |bodies| && k in Keepable(bodies)
    ensures var first, closing := |u| + 1, |u| + 1 + |Cobs.Encode(BuildFrame(t, payload))|;
      ChunkStart(bodies, k) + |bodies[k]| <= first || closing < ChunkStart(bodies, k)
  {
    var e := Cobs.Encode(BuildFrame(t, payload));
    EncodedBuilt(t, payload);
    BuiltIdentityNeverCleared(t, payload);
    WrappedInStream(u, e, w);
    DelimitedNeverReleased(bodies, u, e, w, k);
  }

  lemma WrappedInStream(u: seq<Byte>, e: seq<Byte>, w: seq<Byte>)
    ensures u + ([0] + e + [0]) + w == u + [0] + e + [0] + w
  {}
}
