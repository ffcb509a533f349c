/** The streaming filter: it holds a bounded part of the stream and releases exactly the chunks that may be kept. */
module Capture {
  import opened Bytes
  import opened FrameStream
  import opened FrameOnWire
  import opened CaptureSpec
  import Multilink

  // ----- One chunk on values -----

  /** The filter's fields, with the two locals of `Feed`: everything released so far, and whether to keep this chunk. */
  datatype Filter<T> = Filter(frame: seq<Byte>, tainted: bool, held: seq<T>, keep: bool, out: seq<T>)

  function OnByte<T>(f: Filter<T>, b: Byte): Filter<T> {
    if b != 0 then
      if |f.frame| < MAX_FRAME_BYTES then f.(frame := f.frame + [b]) else f.(tainted := true)
    else if f.frame == [] && !f.tainted then f
    else if f.tainted || FrameExcluded(f.frame) then Filter([], false, [], false, f.out)
    else Filter([], false, [], f.keep, f.out + f.held)
  }

  function Bounded<T>(f: Filter<T>): Filter<T> {
    if |f.held| >= MAX_HELD_CHUNKS then f.(held := [], tainted := true) else f
  }

  function OnEnd<T>(f: Filter<T>, value: T): Filter<T> {
    var g := Bounded(f);
    if !g.keep || g.tainted then g.(keep := true)
    else if g.frame == [] then g.(keep := true, out := g.out + [value])
    else g.(keep := true, held := g.held + [value])
  }

  // ----- The past, and agreement with it -----

  datatype Past<T> = Past(s: seq<Byte>, ends: seq<nat>, kept: seq<bool>, vals: seq<T>) {
    ghost predicate Valid() {
      Ordered(s, ends, kept) && |vals| == |ends|
    }

    function Open(): nat { Start(s, |s|) }

    function Last(): nat { if ends == [] then 0 else ends[|ends| - 1] }
  }

  function Pick<T>(vals: seq<T>, idx: seq<nat>): seq<T>
    requires Below(idx, |vals|)
  {
    if idx == [] then [] else Pick(vals, idx[..|idx| - 1]) + [vals[idx[|idx| - 1]]]
  }

  ghost predicate FrameAgrees<T>(p: Past<T>, f: Filter<T>)
    requires p.Valid()
  {
    f.frame == p.s[p.Open()..if |p.s| - p.Open() <= MAX_FRAME_BYTES then |p.s| else p.Open() + MAX_FRAME_BYTES]
  }

  ghost predicate TaintAgrees<T>(p: Past<T>, f: Filter<T>)
    requires p.Valid()
  {
    f.tainted <==> |p.s| - p.Open() > MAX_FRAME_BYTES || Crowded(p.ends, p.kept, p.Open(), |p.s|)
  }

  ghost predicate HeldAgrees<T>(p: Past<T>, f: Filter<T>)
    requires p.Valid()
  {
    && |f.held| <= MAX_HELD_CHUNKS
    && (p.Open() == |p.s| ==> f.held == [])
    && (!f.tainted ==> f.held == Pick(p.vals, HeldFor(p.ends, p.kept, p.Open(), |p.ends|)))
  }

  ghost predicate KeepAgrees<T>(p: Past<T>, f: Filter<T>)
    requires p.Valid()
  {
    f.keep <==> Clean(p.s, p.ends, p.kept, p.Last())
  }

  ghost predicate OutAgrees<T>(p: Past<T>, f: Filter<T>)
    requires p.Valid()
  {
    f.out == Pick(p.vals, ClearedUpTo(p.s, p.ends, p.kept, |p.ends|))
  }

  ghost predicate Agrees<T>(p: Past<T>, f: Filter<T>) {
    p.Valid() && FrameAgrees(p, f) && TaintAgrees(p, f) && HeldAgrees(p, f) && KeepAgrees(p, f) && OutAgrees(p, f)
  }

  // ----- Lists of indices -----

  lemma {:induction false} PickAppend<T>(vals: seq<T>, a: seq<nat>, b: seq<nat>)
    requires Below(a, |vals|) && Below(b, |vals|)
    ensures Below(a + b, |vals|)
    ensures Pick(vals, a + b) == Pick(vals, a) + Pick(vals, b)
  {
    if b == [] {
      assert a + b == a;
    } else {
      var n := |b| - 1;
      PickAppend(vals, a, b[..n]);
      assert (a + b)[..|a + b| - 1] == a + b[..n];
    }
  }

  lemma {:induction false} PickMore<T>(vals: seq<T>, v: T, idx: seq<nat>)
    requires Below(idx, |vals|)
    ensures Pick(vals + [v], idx) == Pick(vals, idx)
  {
    if idx != [] {
      PickMore(vals, v, idx[..|idx| - 1]);
    }
  }

  lemma {:induction false} PickLength<T>(vals: seq<T>, idx: seq<nat>)
    requires Below(idx, |vals|)
    ensures |Pick(vals, idx)| == |idx|
  {
    if idx != [] {
      PickLength(vals, idx[..|idx| - 1]);
    }
  }

  /** No chunk that ended by `a` is held for a frame starting there. */
  lemma {:induction false} NothingHeldFor(ends: seq<nat>, kept: seq<bool>, a: nat, k: nat)
    requires k <= |ends| == |kept| && forall j :: 0 <= j < k ==> ends[j] <= a
    ensures HeldFor(ends, kept, a, k) == []
  {
    if k > 0 {
      NothingHeldFor(ends, kept, a, k - 1);
    }
  }

  // ----- A nonzero byte -----

  lemma StartOfNonzero(s: seq<Byte>, b: Byte)
    requires b != 0
    ensures Start(s + [b], |s| + 1) == Start(s, |s|)
  {
    StartStable(s, [b], |s|);
  }

  lemma {:induction false} ClearedSame(s: seq<Byte>, b: Byte, ends: seq<nat>, kept: seq<bool>, n: nat)
    requires Ordered(s, ends, kept) && n <= |ends| && !Closes(s + [b], |s|)
    ensures Ordered(s + [b], ends, kept)
    ensures ClearedUpTo(s + [b], ends, kept, n) == ClearedUpTo(s, ends, kept, n)
  {
    if n > 0 {
      ClearedSame(s, b, ends, kept, n - 1);
      OneClearedSame(s, b, ends, kept, n - 1);
    }
  }

  lemma ClosesForStable(s: seq<Byte>, b: Byte, ends: seq<nat>, kept: seq<bool>, k: nat, i: nat)
    requires Ordered(s, ends, kept) && k < |ends| && i < |s|
    ensures ClosesFor(s + [b], ends, k, i) == ClosesFor(s, ends, k, i)
    ensures Good(s + [b], ends, kept, i) == Good(s, ends, kept, i)
  {
    CloseStable(s, [b], i);
    StartStable(s, [b], i);
    GoodStable(s, [b], ends, kept, [], [], i);
    assert ends + [] == ends && kept + [] == kept;
  }

  lemma OneClearedSame(s: seq<Byte>, b: Byte, ends: seq<nat>, kept: seq<bool>, k: nat)
    requires Ordered(s, ends, kept) && k < |ends| && !ClosesFor(s + [b], ends, k, |s|)
    ensures Cleared(s + [b], ends, kept, k) == Cleared(s, ends, kept, k)
  {
    StartStable(s, [b], ends[k]);
    forall i | ends[k] <= i < |s|
      ensures ClosesFor(s + [b], ends, k, i) == ClosesFor(s, ends, k, i)
      ensures Good(s + [b], ends, kept, i) == Good(s, ends, kept, i)
    {
      ClosesForStable(s, b, ends, kept, k, i);
    }
    if Cleared(s, ends, kept, k) && RunBefore(s, ends[k]) != 0 {
      var i :| ends[k] <= i < |s| && ClosesFor(s, ends, k, i) && Good(s, ends, kept, i);
      assert ClosesFor(s + [b], ends, k, i);
    }
  }

  lemma CleanSame(s: seq<Byte>, b: Byte, ends: seq<nat>, kept: seq<bool>, lo: nat)
    requires Ordered(s, ends, kept) && lo <= |s|
    ensures Clean(s + [b], ends, kept, lo) <==>
      Clean(s, ends, kept, lo) && (Closes(s + [b], |s|) ==> Good(s + [b], ends, kept, |s|))
  {
    forall i | lo <= i < |s|
      ensures Closes(s + [b], i) == Closes(s, i) && Good(s + [b], ends, kept, i) == Good(s, ends, kept, i)
    {
      CloseStable(s, [b], i);
      GoodStable(s, [b], ends, kept, [], [], i);
      assert ends + [] == ends && kept + [] == kept;
    }
  }

  /** Every chunk has ended, so one more byte crowds nothing. */
  lemma CrowdedSame(s: seq<Byte>, ends: seq<nat>, kept: seq<bool>, a: nat)
    requires Ordered(s, ends, kept)
    ensures Crowded(ends, kept, a, |s| + 1) == Crowded(ends, kept, a, |s|)
  {}

  lemma NonzeroFrame<T>(p: Past<T>, f: Filter<T>, b: Byte)
    requires p.Valid() && FrameAgrees(p, f) && TaintAgrees(p, f) && b != 0
    ensures var q, g := p.(s := p.s + [b]), OnByte(f, b);
      q.Valid() && q.Open() == p.Open() && FrameAgrees(q, g) && TaintAgrees(q, g)
  {
    StartOfNonzero(p.s, b);
    CrowdedSame(p.s, p.ends, p.kept, p.Open());
  }

  lemma NonzeroCloses(s: seq<Byte>, b: Byte)
    requires b != 0
    ensures !Closes(s + [b], |s|)
  {}

  lemma NonzeroOut<T>(p: Past<T>, f: Filter<T>, b: Byte, q: Past<T>, g: Filter<T>)
    requires p.Valid() && OutAgrees(p, f) && b != 0 && q == p.(s := p.s + [b]) && g.out == f.out
    ensures q.Valid() && OutAgrees(q, g)
  {
    NonzeroCloses(p.s, b);
    ClearedSame(p.s, b, p.ends, p.kept, |p.ends|);
  }

  lemma NonzeroKeep<T>(p: Past<T>, f: Filter<T>, b: Byte, q: Past<T>, g: Filter<T>)
    requires p.Valid() && KeepAgrees(p, f) && b != 0 && q == p.(s := p.s + [b]) && q.Valid() && g.keep == f.keep
    ensures KeepAgrees(q, g)
  {
    NonzeroCloses(p.s, b);
    CleanSame(p.s, b, p.ends, p.kept, p.Last());
  }

  lemma NonzeroByte<T>(p: Past<T>, f: Filter<T>, b: Byte)
    requires Agrees(p, f) && b != 0
    ensures Agrees(p.(s := p.s + [b]), OnByte(f, b))
  {
    var q, g := p.(s := p.s + [b]), OnByte(f, b);
    NonzeroFrame(p, f, b);
    NonzeroOut(p, f, b, q, g);
    NonzeroKeep(p, f, b, q, g);
  }

  // ----- A zero byte -----

  lemma StartAfterZero(s: seq<Byte>)
    ensures Start(s + [0], |s| + 1) == |s| + 1
    ensures RunBefore(s + [0], |s|) == RunBefore(s, |s|)
  {
    StartStable(s, [0], |s|);
  }

  /** After a zero no frame is open, nothing is held and nothing is tainted. */
  lemma NothingOpen<T>(q: Past<T>, g: Filter<T>)
    requires q.Valid() && q.Open() == |q.s|
    requires forall k :: 0 <= k < |q.ends| ==> q.ends[k] <= |q.s|
    requires g.frame == [] && g.held == [] && !g.tainted
    ensures FrameAgrees(q, g) && TaintAgrees(q, g) && HeldAgrees(q, g)
  {
    NothingHeldFor(q.ends, q.kept, q.Open(), |q.ends|);
  }

  lemma IdleZero<T>(p: Past<T>, f: Filter<T>)
    requires Agrees(p, f) && p.Open() == |p.s|
    ensures Agrees(p.(s := p.s + [0]), OnByte(f, 0))
  {
    var q := p.(s := p.s + [0]);
    StartAfterZero(p.s);
    ClearedSame(p.s, 0, p.ends, p.kept, |p.ends|);
    CleanSame(p.s, 0, p.ends, p.kept, p.Last());
    NothingOpen(q, OnByte(f, 0));
  }

  /** The branch the filter takes on a closing zero is the verdict on the frame it closes. */
  lemma VerdictIsGood<T>(p: Past<T>, f: Filter<T>)
    requires p.Valid() && FrameAgrees(p, f) && TaintAgrees(p, f) && p.Open() < |p.s|
    ensures Closes(p.s + [0], |p.s|) && Start(p.s + [0], |p.s|) == p.Open()
    ensures Good(p.s + [0], p.ends, p.kept, |p.s|) <==> !f.tainted && !FrameExcluded(f.frame)
  {
    StartAfterZero(p.s);
    assert (p.s + [0])[p.Open()..|p.s|] == p.s[p.Open()..|p.s|];
  }

  lemma OpenIsNonzero(s: seq<Byte>, e: nat)
    requires Start(s, |s|) < e <= |s|
    ensures RunBefore(s, e) > 0
    ensures forall i :: e <= i < |s| ==> !Closes(s, i)
  {
    RunBeforeIsRun(s, |s|);
  }

  lemma ClearedByClose(s: seq<Byte>, ends: seq<nat>, kept: seq<bool>, k: nat)
    requires Ordered(s, ends, kept) && k < |ends| && Start(s, |s|) < ends[k] && Closes(s + [0], |s|)
    ensures !Cleared(s, ends, kept, k)
    ensures Cleared(s + [0], ends, kept, k) <==> kept[k] && Good(s + [0], ends, kept, |s|)
  {
    OpenIsNonzero(s, ends[k]);
    StartAfterZero(s);
    StartStable(s, [0], ends[k]);
    forall i | ends[k] <= i < |s| ensures !Closes(s + [0], i) {
      CloseStable(s, [0], i);
    }
    assert ClosesFor(s + [0], ends, k, |s|);
  }

  /** What chunk `k` adds when a zero closes the open frame is what it was held for, or what it had cleared before. */
  lemma AddedAtClose(s: seq<Byte>, ends: seq<nat>, kept: seq<bool>, k: nat)
    requires Ordered(s, ends, kept) && k < |ends| && Closes(s + [0], |s|)
    ensures var a, good := Start(s, |s|), Good(s + [0], ends, kept, |s|);
      if ends[k] > a then !Cleared(s, ends, kept, k) && (Cleared(s + [0], ends, kept, k) <==> kept[k] && good)
      else HeldFor(ends, kept, a, k + 1) == [] && Cleared(s + [0], ends, kept, k) == Cleared(s, ends, kept, k)
  {
    if ends[k] > Start(s, |s|) {
      ClearedByClose(s, ends, kept, k);
    } else {
      NothingHeldFor(ends, kept, Start(s, |s|), k + 1);
      StartAfterZero(s);
      OneClearedSame(s, 0, ends, kept, k);
    }
  }

  /** A closing zero releases what is held for the frame if the frame is good, and nothing otherwise. */
  lemma {:induction false} ClearedAtClose(s: seq<Byte>, ends: seq<nat>, kept: seq<bool>, n: nat)
    requires Ordered(s, ends, kept) && Ordered(s + [0], ends, kept) && n <= |ends| && Closes(s + [0], |s|)
    ensures ClearedUpTo(s + [0], ends, kept, n) == ClearedUpTo(s, ends, kept, n) +
      (if Good(s + [0], ends, kept, |s|) then HeldFor(ends, kept, Start(s, |s|), n) else [])
  {
    if n > 0 {
      var a := Start(s, |s|);
      ClearedAtClose(s, ends, kept, n - 1);
      AddedAtClose(s, ends, kept, n - 1);
      var added := if Good(s + [0], ends, kept, |s|) then HeldFor(ends, kept, a, n - 1) else [];
      var cleared := ClearedUpTo(s, ends, kept, n - 1);
      if ends[n - 1] > a {
        assert ClearedUpTo(s, ends, kept, n) == cleared;
        assert cleared + added + [n - 1] == cleared + (added + [n - 1]);
      } else {
        NothingHeldFor(ends, kept, a, n - 1);
        assert added == [];
      }
    }
  }

  lemma ClosingZero<T>(p: Past<T>, f: Filter<T>)
    requires Agrees(p, f) && p.Open() < |p.s|
    ensures Agrees(p.(s := p.s + [0]), OnByte(f, 0))
  {
    var q, g := p.(s := p.s + [0]), OnByte(f, 0);
    VerdictIsGood(p, f);
    ClearedAtClose(p.s, p.ends, p.kept, |p.ends|);
    CleanSame(p.s, 0, p.ends, p.kept, p.Last());
    StartAfterZero(p.s);
    NothingOpen(q, g);
    ClosingOut(p, f);
  }

  lemma ClosingVerdict<T>(f: Filter<T>)
    requires f.frame != []
    ensures var good := !f.tainted && !FrameExcluded(f.frame);
      OnByte(f, 0).out == if good then f.out + f.held else f.out
  {}

  lemma PickCleared<T>(vals: seq<T>, cleared: seq<nat>, more: seq<nat>, out: seq<T>, held: seq<T>, all: seq<nat>)
    requires Below(cleared, |vals|) && Below(more, |vals|) && Below(all, |vals|) && all == cleared + more
    requires out == Pick(vals, cleared) && held == Pick(vals, more)
    ensures out + held == Pick(vals, all)
  {
    PickAppend(vals, cleared, more);
  }

  lemma ClosingOut<T>(p: Past<T>, f: Filter<T>)
    requires Agrees(p, f) && p.Open() < |p.s| && Closes(p.s + [0], |p.s|)
    requires Good(p.s + [0], p.ends, p.kept, |p.s|) <==> !f.tainted && !FrameExcluded(f.frame)
    ensures p.(s := p.s + [0]).Valid() && OutAgrees(p.(s := p.s + [0]), OnByte(f, 0))
  {
    var n := |p.ends|;
    ClearedAtClose(p.s, p.ends, p.kept, n);
    ClosingVerdict(f);
    var cleared, all := ClearedUpTo(p.s, p.ends, p.kept, n), ClearedUpTo(p.s + [0], p.ends, p.kept, n);
    if Good(p.s + [0], p.ends, p.kept, |p.s|) {
      PickCleared(p.vals, cleared, HeldFor(p.ends, p.kept, p.Open(), n), f.out, f.held, all);
    } else {
      assert all == cleared;
    }
  }

  lemma AnyByte<T>(p: Past<T>, f: Filter<T>, b: Byte)
    requires Agrees(p, f)
    ensures Agrees(p.(s := p.s + [b]), OnByte(f, b))
  {
    if b != 0 {
      NonzeroByte(p, f, b);
    } else if p.Open() == |p.s| {
      IdleZero(p, f);
    } else {
      ClosingZero(p, f);
    }
  }

  // ----- The end of a chunk -----

  function Ended<T>(p: Past<T>, keep: bool, value: T): Past<T> {
    Past(p.s, p.ends + [|p.s|], p.kept + [keep], p.vals + [value])
  }

  lemma CrowdedBefore(s: seq<Byte>, ends: seq<nat>, kept: seq<bool>, v: bool, a: nat)
    requires Ordered(s, ends, kept)
    requires Crowded(ends, kept, a, |s|) || (a < |s| && |HeldFor(ends, kept, a, |ends|)| >= MAX_HELD_CHUNKS)
    ensures Crowded(ends + [|s|], kept + [v], a, |s|)
  {
    var e, w := ends + [|s|], kept + [v];
    var k := |ends|;
    if Crowded(ends, kept, a, |s|) {
      k :| 0 <= k < |ends| && a < ends[k] <= |s| && |HeldFor(ends, kept, a, k)| >= MAX_HELD_CHUNKS;
    }
    HeldStable(ends, kept, [|s|], [v], a, k);
    assert 0 <= k < |e| && a < e[k] <= |s| && |HeldFor(e, w, a, k)| >= MAX_HELD_CHUNKS;
  }

  lemma CrowdedAfter(s: seq<Byte>, ends: seq<nat>, kept: seq<bool>, v: bool, a: nat)
    requires Ordered(s, ends, kept) && Crowded(ends + [|s|], kept + [v], a, |s|)
    ensures Crowded(ends, kept, a, |s|) || (a < |s| && |HeldFor(ends, kept, a, |ends|)| >= MAX_HELD_CHUNKS)
  {
    var e, w := ends + [|s|], kept + [v];
    var k :| 0 <= k < |e| && a < e[k] <= |s| && |HeldFor(e, w, a, k)| >= MAX_HELD_CHUNKS;
    CrowdedEarlier(ends, kept, |s|, v, a, k);
  }

  lemma CrowdedEarlier(ends: seq<nat>, kept: seq<bool>, end: nat, v: bool, a: nat, k: nat)
    requires |ends| == |kept| && k <= |ends| && a < (ends + [end])[k] <= end
    requires |HeldFor(ends + [end], kept + [v], a, k)| >= MAX_HELD_CHUNKS
    ensures Crowded(ends, kept, a, end) || (a < end && |HeldFor(ends, kept, a, |ends|)| >= MAX_HELD_CHUNKS)
  {
    HeldStable(ends, kept, [end], [v], a, k);
    if k < |ends| {
      assert (ends + [end])[k] == ends[k];
    }
  }

  lemma EndCrowds(s: seq<Byte>, ends: seq<nat>, kept: seq<bool>, v: bool, a: nat)
    requires Ordered(s, ends, kept)
    ensures Crowded(ends + [|s|], kept + [v], a, |s|) <==>
      Crowded(ends, kept, a, |s|) || (a < |s| && |HeldFor(ends, kept, a, |ends|)| >= MAX_HELD_CHUNKS)
  {
    if Crowded(ends + [|s|], kept + [v], a, |s|) {
      CrowdedAfter(s, ends, kept, v, a);
    } else if Crowded(ends, kept, a, |s|) || (a < |s| && |HeldFor(ends, kept, a, |ends|)| >= MAX_HELD_CHUNKS) {
      CrowdedBefore(s, ends, kept, v, a);
    }
  }

  lemma HeldCount<T>(p: Past<T>, f: Filter<T>)
    requires p.Valid() && HeldAgrees(p, f) && !f.tainted
    ensures |f.held| == |HeldFor(p.ends, p.kept, p.Open(), |p.ends|)|
  {
    PickLength(p.vals, HeldFor(p.ends, p.kept, p.Open(), |p.ends|));
  }

  lemma EndTaint<T>(p: Past<T>, f: Filter<T>, value: T)
    requires p.Valid() && TaintAgrees(p, f) && HeldAgrees(p, f)
    ensures Ended(p, f.keep, value).Valid() && TaintAgrees(Ended(p, f.keep, value), Bounded(f))
  {
    var q := Ended(p, f.keep, value);
    EndCrowds(p.s, p.ends, p.kept, f.keep, p.Open());
    if !f.tainted {
      HeldCount(p, f);
    }
  }

  lemma HeldAfterEnd(ends: seq<nat>, kept: seq<bool>, e: nat, v: bool, a: nat)
    requires |ends| == |kept|
    ensures var n := |ends|;
      HeldFor(ends + [e], kept + [v], a, n + 1) ==
      HeldFor(ends, kept, a, n) + (if e > a && v then [n] else [])
  {
    HeldStable(ends, kept, [e], [v], a, |ends|);
  }

  lemma PickOne<T>(vals: seq<T>, i: nat)
    requires i < |vals|
    ensures Pick(vals, [i]) == [vals[i]]
  {
    assert [i][..0] == [];
    assert Pick(vals, [i][..0]) == [];
  }

  /** The value of the chunk that just ended joins a list exactly when its index does. */
  lemma PickAfterEnd<T>(vals: seq<T>, v: T, idx: seq<nat>, all: seq<nat>, joins: bool)
    requires Below(idx, |vals|) && Below(all, |vals| + 1)
    requires all == idx + (if joins then [|vals|] else [])
    ensures Pick(vals + [v], all) == Pick(vals, idx) + (if joins then [v] else [])
  {
    PickMore(vals, v, idx);
    if joins {
      PickAppend(vals + [v], idx, [|vals|]);
      PickOne(vals + [v], |vals|);
    } else {
      assert all == idx;
    }
  }

  lemma EndHeldValues<T>(p: Past<T>, keep: bool, value: T)
    requires p.Valid() && Ended(p, keep, value).Valid()
    ensures var n, a, q := |p.ends|, p.Open(), Ended(p, keep, value);
      Pick(q.vals, HeldFor(q.ends, q.kept, a, n + 1)) ==
      Pick(p.vals, HeldFor(p.ends, p.kept, a, n)) + (if |p.s| > a && keep then [value] else [])
  {
    var n, a, q := |p.ends|, p.Open(), Ended(p, keep, value);
    HeldAfterEnd(p.ends, p.kept, |p.s|, keep, a);
    PickAfterEnd(p.vals, value, HeldFor(p.ends, p.kept, a, n), HeldFor(q.ends, q.kept, a, n + 1), |p.s| > a && keep);
  }

  lemma OnEndHeld<T>(f: Filter<T>, value: T)
    requires |f.held| <= MAX_HELD_CHUNKS
    ensures var g := OnEnd(f, value);
      && |g.held| <= MAX_HELD_CHUNKS
      && (!g.tainted ==> !f.tainted && g.held == f.held + (if f.keep && f.frame != [] then [value] else []))
      && (f.frame == [] && f.held == [] ==> g.held == [])
  {
    assert f.held + [] == f.held;
  }

  lemma EndHeld<T>(p: Past<T>, f: Filter<T>, value: T)
    requires p.Valid() && FrameAgrees(p, f) && HeldAgrees(p, f) && Ended(p, f.keep, value).Valid()
    ensures HeldAgrees(Ended(p, f.keep, value), OnEnd(f, value))
  {
    EndHeldValues(p, f.keep, value);
    OnEndHeld(f, value);
    FrameOpen(p, f);
  }

  lemma FrameOpen<T>(p: Past<T>, f: Filter<T>)
    requires p.Valid() && FrameAgrees(p, f)
    ensures f.frame == [] <==> p.Open() == |p.s|
  {}

  lemma ClearedStableEnd(s: seq<Byte>, ends: seq<nat>, kept: seq<bool>, v: bool, k: nat)
    requires Ordered(s, ends, kept) && k < |ends|
    ensures Cleared(s, ends + [|s|], kept + [v], k) == Cleared(s, ends, kept, k)
  {
    forall i | 0 <= i < |s|
      ensures Good(s, ends + [|s|], kept + [v], i) == Good(s, ends, kept, i)
      ensures ClosesFor(s, ends + [|s|], k, i) == ClosesFor(s, ends, k, i)
    {
      GoodStable(s, [], ends, kept, [|s|], [v], i);
      assert s + [] == s;
    }
    if Cleared(s, ends, kept, k) && RunBefore(s, ends[k]) != 0 {
      var i :| ends[k] <= i < |s| && ClosesFor(s, ends, k, i) && Good(s, ends, kept, i);
      assert ClosesFor(s, ends + [|s|], k, i);
    }
  }

  lemma {:induction false} ClearedUpToStableEnd(s: seq<Byte>, ends: seq<nat>, kept: seq<bool>, v: bool, n: nat)
    requires Ordered(s, ends, kept) && Ordered(s, ends + [|s|], kept + [v]) && n <= |ends|
    ensures ClearedUpTo(s, ends + [|s|], kept + [v], n) == ClearedUpTo(s, ends, kept, n)
  {
    if n > 0 {
      ClearedUpToStableEnd(s, ends, kept, v, n - 1);
      ClearedStableEnd(s, ends, kept, v, n - 1);
    }
  }

  lemma NewestCleared(s: seq<Byte>, ends: seq<nat>, kept: seq<bool>, k: nat)
    requires k < |ends| == |kept| && ends[k] == |s|
    ensures Cleared(s, ends, kept, k) <==> kept[k] && RunBefore(s, |s|) == 0
  {}

  lemma OneMoreCleared(s: seq<Byte>, ends: seq<nat>, kept: seq<bool>, n: nat, joins: bool)
    requires Ordered(s, ends, kept) && n < |ends| && joins == Cleared(s, ends, kept, n)
    ensures ClearedUpTo(s, ends, kept, n + 1) == ClearedUpTo(s, ends, kept, n) + (if joins then [n] else [])
  {}

  lemma ClearedAfterEnd(s: seq<Byte>, ends: seq<nat>, kept: seq<bool>, v: bool)
    requires Ordered(s, ends, kept) && Ordered(s, ends + [|s|], kept + [v])
    ensures var n := |ends|;
      ClearedUpTo(s, ends + [|s|], kept + [v], n + 1) ==
      ClearedUpTo(s, ends, kept, n) + (if v && RunBefore(s, |s|) == 0 then [n] else [])
  {
    ClearedUpToStableEnd(s, ends, kept, v, |ends|);
    NewestCleared(s, ends + [|s|], kept + [v], |ends|);
    OneMoreCleared(s, ends + [|s|], kept + [v], |ends|, v && RunBefore(s, |s|) == 0);
  }

  lemma EndOutValues<T>(p: Past<T>, keep: bool, value: T)
    requires p.Valid() && Ended(p, keep, value).Valid()
    ensures var n, q := |p.ends|, Ended(p, keep, value);
      Pick(q.vals, ClearedUpTo(q.s, q.ends, q.kept, n + 1)) ==
      Pick(p.vals, ClearedUpTo(p.s, p.ends, p.kept, n)) + (if keep && RunBefore(p.s, |p.s|) == 0 then [value] else [])
  {
    var n, q := |p.ends|, Ended(p, keep, value);
    var joins := keep && RunBefore(p.s, |p.s|) == 0;
    ClearedAfterEnd(p.s, p.ends, p.kept, keep);
    PickAfterEnd(p.vals, value, ClearedUpTo(p.s, p.ends, p.kept, n), ClearedUpTo(q.s, q.ends, q.kept, n + 1), joins);
  }

  lemma EndOut<T>(p: Past<T>, f: Filter<T>, value: T)
    requires p.Valid() && FrameAgrees(p, f) && OutAgrees(p, f)
    requires Ended(p, f.keep, value).Valid() && TaintAgrees(Ended(p, f.keep, value), Bounded(f))
    ensures OutAgrees(Ended(p, f.keep, value), OnEnd(f, value))
  {
    EndOutValues(p, f.keep, value);
    OutJoins(p, f, value);
  }

  lemma OutJoins<T>(p: Past<T>, f: Filter<T>, value: T)
    requires p.Valid() && FrameAgrees(p, f) && Ended(p, f.keep, value).Valid()
    requires TaintAgrees(Ended(p, f.keep, value), Bounded(f))
    ensures OnEnd(f, value).out == f.out + (if f.keep && RunBefore(p.s, |p.s|) == 0 then [value] else [])
  {
    assert f.frame == [] <==> p.Open() == |p.s|;
    assert f.out + [] == f.out;
  }

  lemma EndOfChunk<T>(p: Past<T>, f: Filter<T>, value: T)
    requires Agrees(p, f)
    ensures Agrees(Ended(p, f.keep, value), OnEnd(f, value))
  {
    EndTaint(p, f, value);
    EndHeld(p, f, value);
    EndOut(p, f, value);
    var q := Ended(p, f.keep, value);
    assert q.Last() == |q.s|;
  }

  /** What was released before a chunk stays in front of what the chunk releases. */
  lemma OnByteAfter<T>(f: Filter<T>, b: Byte, before: seq<T>)
    ensures OnByte(f.(out := before + f.out), b) == OnByte(f, b).(out := before + OnByte(f, b).out)
  {
    assert (before + f.out) + f.held == before + (f.out + f.held);
  }

  lemma OnEndAfter<T>(f: Filter<T>, value: T, before: seq<T>)
    ensures OnEnd(f.(out := before + f.out), value) == OnEnd(f, value).(out := before + OnEnd(f, value).out)
  {
    assert (before + f.out) + [value] == before + (f.out + [value]);
  }

  // ----- The filter -----

  class IdentityFilter<T> {
    var frame: seq<Byte>
    var tainted: bool
    var held: seq<T>

    /** The bodies of the chunks fed so far, their values, and everything released so far. */
    ghost var bodies: seq<seq<Byte>>
    ghost var vals: seq<T>
    ghost var released: seq<T>

    ghost predicate Valid()
      reads this
    {
      Follows(bodies, vals, Filter(frame, tainted, held, true, released))
    }

    constructor ()
      ensures Valid() && bodies == [] && vals == [] && released == []
    {
      FollowsNothing<T>([], [], Filter([], false, [], true, []));
      frame, tainted, held := [], false, [];
      bodies, vals, released := [], [], [];
    }

    /** Feed one chunk. What has been released by then is exactly the values of the chunks that may be kept. */
    method Feed(chunk: seq<Byte>, value: T) returns (out: seq<T>)
      requires Valid()
      modifies this
      ensures Valid()
      ensures bodies == old(bodies) + [Multilink.Body(chunk)] && vals == old(vals) + [value]
      ensures released == old(released) + out
      ensures Below(Keepable(bodies), |vals|) && released == Pick(vals, Keepable(bodies))
      ensures |frame| <= MAX_FRAME_BYTES && |held| <= MAX_HELD_CHUNKS
    {
      out := [];
      var keep := true;
      var body := Multilink.Body(chunk);
      ghost var f := Filter(frame, tainted, held, true, []);
      for i := 0 to |body|
        invariant bodies == old(bodies) && vals == old(vals) && released == old(released)
        invariant Filter(frame, tainted, held, keep, out) == OnBytes(f, body[..i])
      {
        OnBytesStep(f, body, i);
        keep, out := FeedByte(body[i], keep, out);
      }
      assert body[..|body|] == body;
      out := FeedEnd(value, keep, out);
      OnChunkAfter(f, body, value, released);
      FollowsFeed(bodies, vals, f.(out := released), body, value, bodies + [body], vals + [value],
                  OnChunk(f.(out := released), body, value));
      bodies, vals, released := bodies + [body], vals + [value], released + out;
      FollowsMeans(bodies, vals, Filter(frame, tainted, held, true, released));
    }

    /** One turn of the loop over the bytes of a chunk. */
    method FeedByte(b: Byte, keep: bool, out: seq<T>) returns (keep': bool, out': seq<T>)
      modifies `frame, `tainted, `held
      ensures Filter(frame, tainted, held, keep', out') == OnByte(old(Filter(frame, tainted, held, keep, out)), b)
    {
      keep', out' := keep, out;
      if b != 0 {
        if |frame| < MAX_FRAME_BYTES {
          frame := frame + [b];
        } else {
          tainted := true;
        }
        return;
      }
      if frame == [] && !tainted {
        return;
      }
      if tainted || FrameExcluded(frame) {
        held := [];
        keep' := false;
      } else {
        out' := out' + held;
        held := [];
      }
      frame := [];
      tainted := false;
    }

    /** What follows the loop: the bound on held chunks, and where the chunk itself goes. */
    method FeedEnd(value: T, keep: bool, out: seq<T>) returns (out': seq<T>)
      modifies `frame, `tainted, `held
      ensures Filter(frame, tainted, held, true, out') == OnEnd(old(Filter(frame, tainted, held, keep, out)), value)
    {
      out' := out;
      if |held| >= MAX_HELD_CHUNKS {
        held := [];
        tainted := true;
      }
      if keep && !tainted {
        if frame == [] {
          out' := out' + [value];
        } else {
          held := held + [value];
        }
      }
    }
  }

  // ----- Whole chunks, whole captures -----

  function OnBytes<T>(f: Filter<T>, body: seq<Byte>): Filter<T> {
    if body == [] then f else OnByte(OnBytes(f, body[..|body| - 1]), body[|body| - 1])
  }

  lemma OnBytesStep<T>(f: Filter<T>, body: seq<Byte>, i: nat)
    requires i < |body|
    ensures OnBytes(f, body[..i + 1]) == OnByte(OnBytes(f, body[..i]), body[i])
  {
    assert body[..i + 1][..i] == body[..i];
  }

  function OnChunk<T>(f: Filter<T>, body: seq<Byte>, value: T): Filter<T> {
    OnEnd(OnBytes(f, body), value)
  }

  lemma {:induction false} OnBytesAfter<T>(f: Filter<T>, body: seq<Byte>, before: seq<T>)
    ensures OnBytes(f.(out := before + f.out), body) == OnBytes(f, body).(out := before + OnBytes(f, body).out)
  {
    if body != [] {
      var n := |body| - 1;
      OnBytesAfter(f, body[..n], before);
      OnByteAfter(OnBytes(f, body[..n]), body[n], before);
    }
  }

  lemma OnChunkAfter<T>(f: Filter<T>, body: seq<Byte>, value: T, before: seq<T>)
    requires f.out == []
    ensures OnChunk(f.(out := before), body, value) ==
      OnChunk(f, body, value).(out := before + OnChunk(f, body, value).out)
  {
    assert before + f.out == before;
    OnBytesAfter(f, body, before);
    OnEndAfter(OnBytes(f, body), value, before);
  }

  lemma OneMoreByte(s: seq<Byte>, body: seq<Byte>)
    requires body != []
    ensures s + body == s + body[..|body| - 1] + [body[|body| - 1]]
  {}

  lemma {:induction false} BytesAgree<T>(p: Past<T>, f: Filter<T>, body: seq<Byte>)
    requires Agrees(p, f)
    ensures Agrees(p.(s := p.s + body), OnBytes(f, body))
  {
    if body == [] {
      assert p.s + body == p.s;
    } else {
      var n := |body| - 1;
      var q, g := p.(s := p.s + body[..n]), OnBytes(f, body[..n]);
      BytesAgree(p, f, body[..n]);
      AnyByte(q, g, body[n]);
      OneMoreByte(p.s, body);
      assert q.(s := q.s + [body[n]]) == p.(s := p.s + body);
    }
  }

  function PastOf<T>(bodies: seq<seq<Byte>>, vals: seq<T>): Past<T> {
    Past(Flatten(bodies), Ends(bodies), Kept(bodies), vals)
  }

  /** The filter agrees with the capture of `bodies`, and is between chunks. */
  ghost predicate Follows<T>(bodies: seq<seq<Byte>>, vals: seq<T>, f: Filter<T>) {
    |vals| == |bodies| && f.keep && exists p :: p == PastOf(bodies, vals) && Agrees(p, f)
  }

  lemma FollowsNothing<T>(bodies: seq<seq<Byte>>, vals: seq<T>, f: Filter<T>)
    requires bodies == [] && vals == [] && f == Filter([], false, [], true, [])
    ensures Follows(bodies, vals, f)
  {
    assert PastOf(bodies, vals) == Past([], [], [], []);
    AgreesNothing(PastOf(bodies, vals), f);
  }

  lemma AgreesNothing<T>(p: Past<T>, f: Filter<T>)
    requires p.s == [] && p.ends == [] && p.kept == [] && p.vals == []
    requires f == Filter([], false, [], true, [])
    ensures Agrees(p, f)
  {
    NothingYet(p, f);
    NothingOpen(p, f);
  }

  lemma NothingYet<T>(p: Past<T>, f: Filter<T>)
    requires p.s == [] && p.ends == [] && p.kept == [] && p.vals == []
    requires f.keep && f.out == []
    ensures p.Open() == 0 && p.Valid() && KeepAgrees(p, f) && OutAgrees(p, f)
  {
    assert p.Valid() && p.Open() == 0;
    EmptyClean(p.s, p.ends, p.kept, p.Last());
    EmptyCleared(p.s, p.ends, p.kept);
  }

  lemma EmptyClean(s: seq<Byte>, ends: seq<nat>, kept: seq<bool>, lo: nat)
    requires s == [] && |ends| == |kept|
    ensures Clean(s, ends, kept, lo)
  {}

  lemma EmptyCleared(s: seq<Byte>, ends: seq<nat>, kept: seq<bool>)
    requires Ordered(s, ends, kept)
    ensures ClearedUpTo(s, ends, kept, 0) == []
  {}

  lemma FollowsFeed<T>(bodies: seq<seq<Byte>>, vals: seq<T>, f: Filter<T>, body: seq<Byte>, value: T,
                       all: seq<seq<Byte>>, allVals: seq<T>, next: Filter<T>)
    requires Follows(bodies, vals, f) && all == bodies + [body] && allVals == vals + [value]
    requires next == OnChunk(f, body, value)
    ensures Follows(all, allVals, next)
  {
    var p := PastOf(bodies, vals);
    assert all[..|all| - 1] == bodies;
    BytesAgree(p, f, body);
    var g := OnBytes(f, body);
    EndOfChunk(p.(s := p.s + body), g, value);
    LastIsEnd(bodies);
    assert Ended(p.(s := p.s + body), g.keep, value) == PastOf(all, allVals);
    assert Agrees(PastOf(all, allVals), next);
  }

  /** What agreement means between chunks: the releases are exact and memory is bounded. */
  lemma FollowsMeans<T>(bodies: seq<seq<Byte>>, vals: seq<T>, f: Filter<T>)
    requires Follows(bodies, vals, f)
    ensures Below(Keepable(bodies), |vals|) && f.out == Pick(vals, Keepable(bodies))
    ensures |f.frame| <= MAX_FRAME_BYTES && |f.held| <= MAX_HELD_CHUNKS
    ensures f.held != [] || f.tainted ==> f.frame != []
  {
    var p := PastOf(bodies, vals);
    if f.frame == [] {
      assert p.Open() == |p.s|;
    }
  }

  lemma LastIsEnd(bodies: seq<seq<Byte>>)
    ensures (if Ends(bodies) == [] then 0 else Ends(bodies)[|bodies| - 1]) == |Flatten(bodies)|
  {}
}
