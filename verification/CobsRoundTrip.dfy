/**
  What `Decode` makes of `Encode`'s output, for every input: exactly the input without the zeros that
  close a full block and without its last zero, and then without one more zero if one is left at the end.
 */
module CobsRoundTrip {
  import opened Wrappers
  import opened Bytes
  import opened Cobs

  /** The zero at `j` follows a run of nonzero bytes whose length is a positive multiple of a full block. */
  predicate ClosesFullBlock(d: seq<Byte>, j: nat)
    requires j < |d|
  {
    d[j] == 0 && RunBefore(d, j) > 0 && RunBefore(d, j) % MAX_RUN == 0
  }

  predicate Lost(d: seq<Byte>, j: nat)
    requires j < |d|
  {
    ClosesFullBlock(d, j) || (j == |d| - 1 && d[j] == 0)
  }

  function Survivors(d: seq<Byte>, i: nat): seq<Byte>
    requires i <= |d|
    decreases |d| - i
  {
    if i == |d| then []
    else if Lost(d, i) then Survivors(d, i + 1)
    else [d[i]] + Survivors(d, i + 1)
  }

  /** What the encoder guarantees of the position where a block starts. */
  predicate BlockStart(d: seq<Byte>, i: nat)
    requires i <= |d|
  {
    i < |d| ==> RunBefore(d, i) % MAX_RUN == 0 && (RunBefore(d, i) > 0 ==> d[i] != 0)
  }

  lemma {:induction false} SurvivorsOfRun(d: seq<Byte>, i: nat, j: nat)
    requires i <= j <= |d|
    requires forall k :: i <= k < j ==> d[k] != 0
    ensures Survivors(d, i) == d[i..j] + Survivors(d, j)
    decreases j - i
  {
    if i < j {
      SurvivorsOfRun(d, i + 1, j);
      assert Survivors(d, i) == [d[i]] + Survivors(d, i + 1);
      assert d[i..j] == [d[i]] + d[i + 1..j];
    }
  }

  /** A block of `n` nonzero bytes after a block start leaves a run of length `n` modulo a full block. */
  lemma RunAfterBlock(r: nat, n: nat)
    requires r % MAX_RUN == 0 && n <= MAX_RUN
    ensures (r + n) % MAX_RUN == n % MAX_RUN
    ensures n % MAX_RUN == 0 <==> n == 0 || n == MAX_RUN
  {}

  lemma {:induction false} DecodeEncodeFrom(d: seq<Byte>, i: nat)
    requires i <= |d| && BlockStart(d, i)
    ensures DecodeBlocks(EncodeFrom(d, i)) == Some(Survivors(d, i))
    decreases |d| - i
  {
    if i < |d| {
      var j := BlockEnd(d, i, i);
      BlockEndStops(d, i, i);
      SurvivorsOfRun(d, i, j);
      RunAfterBlock(RunBefore(d, i), j - i);
      var next := NextBlock(d, j);
      NextIsBlockStart(d, i, j);
      DecodeEncodeFrom(d, next);
      DecodeOwnBlock(d[i..j], EncodeFrom(d, next));
      EncodeFromEmpty(d, next);
      SurvivorsAfterBlock(d, i, j);
    }
  }

  lemma NextIsBlockStart(d: seq<Byte>, i: nat, j: nat)
    requires i < |d| && BlockStart(d, i) && j == BlockEnd(d, i, i)
    ensures i < NextBlock(d, j) <= |d| && BlockStart(d, NextBlock(d, j))
  {
    BlockEndStops(d, i, i);
    RunGrows(d, i, j);
    RunAfterBlock(RunBefore(d, i), j - i);
  }

  lemma EncodeFromEmpty(d: seq<Byte>, i: nat)
    requires i <= |d|
    ensures EncodeFrom(d, i) == [] <==> i == |d|
  {}

  /** The decoder reads back the block the encoder wrote. */
  lemma DecodeOwnBlock(run: seq<Byte>, rest: seq<Byte>)
    requires |run| <= MAX_RUN
    ensures DecodeBlocks([Code(|run|)] + run + rest) ==
      Prepend(run + (if |run| < MAX_RUN && rest != [] then [0] else []), DecodeBlocks(rest))
  {
    var e := [Code(|run|)] + run + rest;
    CodeValue(|run|);
    CodeBelowFull(|run|);
    assert e[1..|run| + 1] == run && e[|run| + 1..] == rest;
    FirstBlock(e, |run| + 1);
  }

  /** A zero code ends the input, whatever follows. */
  lemma DecodeStops(rest: seq<Byte>)
    ensures DecodeBlocks([0] + rest) == Some([]) && Decode([0] + rest) == Ok([])
  {}

  /** A block shorter than its code says fails the input it is in. */
  lemma DecodeTruncated(code: Byte, data: seq<Byte>)
    requires |data| + 1 < code as int
    ensures DecodeBlocks([code] + data) == None && Decode([code] + data) == Err(DecodeError)
  {
    FirstBlock([code] + data, code as int);
  }

  /** Any other block is its data, a zero unless its code is 255 or it is the last, and what the rest decodes to. */
  lemma DecodeBlock(code: Byte, data: seq<Byte>, rest: seq<Byte>)
    requires |data| + 1 == code as int
    ensures DecodeBlocks([code] + data + rest) ==
      match DecodeBlocks(rest)
      case None => None
      case Some(s) => Some(data + (if code != 0xFF && rest != [] then [0] else []) + s)
  {
    var e := [code] + data + rest;
    FirstBlock(e, code as int);
    assert e[1..code as int] == data && e[code as int..] == rest;
  }

  lemma CodeBelowFull(run: nat)
    requires run <= MAX_RUN
    ensures Code(run) != 0 && (Code(run) < 0xFF <==> run < MAX_RUN)
  {
    CodeValue(run);
  }

  /** The decoder's terminator after a block is the survivor, if any, of the zero that ended it. */
  lemma SurvivorsAfterBlock(d: seq<Byte>, i: nat, j: nat)
    requires i < |d| && BlockStart(d, i) && j == BlockEnd(d, i, i)
    ensures var next := NextBlock(d, j);
      Survivors(d, i) == d[i..j] + (if j - i < MAX_RUN && next < |d| then [0] else []) + Survivors(d, next)
  {
    BlockEndStops(d, i, i);
    SurvivorsOfRun(d, i, j);
    RunGrows(d, i, j);
    RunAfterBlock(RunBefore(d, i), j - i);
  }

  /** The exact result of a round trip, for every input. */
  lemma RoundTrip(d: seq<Byte>)
    ensures Decode(Encode(d)) == Ok(StripZero(Survivors(d, 0)))
  {
    DecodeEncodeFrom(d, 0);
  }

  // ----- What the exact result means -----

  lemma {:induction false} NothingLost(d: seq<Byte>, i: nat, j: nat)
    requires i <= j <= |d|
    requires forall k :: i <= k < j ==> !Lost(d, k)
    ensures Survivors(d, i) == d[i..j] + Survivors(d, j)
    decreases j - i
  {
    if i < j {
      NothingLost(d, i + 1, j);
      assert Survivors(d, i) == [d[i]] + Survivors(d, i + 1);
      assert d[i..j] == [d[i]] + d[i + 1..j];
    }
  }

  lemma {:induction false} SurvivorsLength(d: seq<Byte>, i: nat, k: nat)
    requires i <= k <= |d|
    ensures |Survivors(d, i)| <= |d| - i
    ensures k < |d| && Lost(d, k) ==> |Survivors(d, i)| < |d| - i
    decreases |d| - i
  {
    if i < |d| {
      SurvivorsLength(d, i + 1, if i < k then k else i + 1);
    }
  }

  /** A round trip is faithful exactly for the inputs none of whose zeros is lost. */
  lemma RoundTripExact(d: seq<Byte>)
    ensures Decode(Encode(d)) == Ok(d) <==> forall j :: 0 <= j < |d| ==> !Lost(d, j)
  {
    RoundTrip(d);
    if j :| 0 <= j < |d| && Lost(d, j) {
      SurvivorsLength(d, 0, j);
    } else {
      NothingLost(d, 0, |d|);
      assert d[0..|d|] + [] == d;
      assert d != [] ==> !Lost(d, |d| - 1);
    }
  }

  /** `g` is `d` with some of its zeros left out. */
  predicate ZerosRemoved(g: seq<Byte>, d: seq<Byte>)
    decreases |d|
  {
    if d == [] then g == []
    else
      || (g != [] && g[0] == d[0] && ZerosRemoved(g[1..], d[1..]))
      || (d[0] == 0 && ZerosRemoved(g, d[1..]))
  }

  lemma {:induction false} SurvivorsRemoveZeros(d: seq<Byte>, i: nat)
    requires i <= |d|
    ensures ZerosRemoved(Survivors(d, i), d[i..])
    decreases |d| - i
  {
    if i < |d| {
      SurvivorsRemoveZeros(d, i + 1);
      assert d[i..][1..] == d[i + 1..];
      if !Lost(d, i) {
        assert Survivors(d, i)[1..] == Survivors(d, i + 1);
      }
    }
  }

  lemma {:induction false} StripRemovesZero(g: seq<Byte>, d: seq<Byte>)
    requires ZerosRemoved(g, d)
    ensures ZerosRemoved(StripZero(g), d)
    decreases |d|
  {
    if d != [] && g != [] {
      if g[0] == d[0] && ZerosRemoved(g[1..], d[1..]) {
        StripRemovesZero(g[1..], d[1..]);
        if |g| == 1 {
          if g[0] == 0 {
            assert g[1..] == [] == StripZero(g);
          }
        } else {
          assert StripZero(g)[1..] == StripZero(g[1..]);
        }
      } else {
        StripRemovesZero(g, d[1..]);
      }
    }
  }

  /** Decoding an encoding always succeeds, and an unfaithful round trip only ever removes zeros. */
  lemma RoundTripOnlyRemovesZeros(d: seq<Byte>)
    ensures exists g :: Decode(Encode(d)) == Ok(g) && ZerosRemoved(g, d) && (g != d ==> |g| < |d|)
  {
    RoundTrip(d);
    var g := StripZero(Survivors(d, 0));
    SurvivorsRemoveZeros(d, 0);
    assert d[0..] == d;
    StripRemovesZero(Survivors(d, 0), d);
    RoundTripExact(d);
    if j :| 0 <= j < |d| && Lost(d, j) {
      SurvivorsLength(d, 0, j);
    }
  }

  /** Lost zeros sit at offset 254 or later, or at the very end: what is left of the first 254 bytes is in place. */
  lemma RoundTripPrefix(d: seq<Byte>, g: seq<Byte>)
    requires Decode(Encode(d)) == Ok(g)
    ensures |g| <= |d|
    ensures forall k :: 0 <= k < |g| && k < MAX_RUN ==> g[k] == d[k]
  {
    RoundTrip(d);
    SurvivorsLength(d, 0, 0);
    if d != [] {
      var m := if |d| - 1 < MAX_RUN then |d| - 1 else MAX_RUN;
      EarlySurvive(d, m);
      NothingLost(d, 0, m);
      FrontInPlace(d, Survivors(d, 0), Survivors(d, m), g, m);
    }
  }

  lemma FrontInPlace(d: seq<Byte>, s: seq<Byte>, rest: seq<Byte>, g: seq<Byte>, m: nat)
    requires m <= |d| && s == d[0..m] + rest && g == StripZero(s)
    ensures forall k :: 0 <= k < |g| && k < m ==> g[k] == d[k]
  {}

  lemma EarlySurvive(d: seq<Byte>, m: nat)
    requires m < |d| && m <= MAX_RUN
    ensures forall k :: 0 <= k < m ==> !Lost(d, k)
  {}

  /** When no zero closes a full block, a round trip loses the last byte if it is zero, and then one more. */
  lemma RoundTripTail(d: seq<Byte>)
    requires d != [] && forall j :: 0 <= j < |d| - 1 ==> !ClosesFullBlock(d, j)
    ensures Decode(Encode(d)) == Ok(if d[|d| - 1] == 0 then StripZero(d[..|d| - 1]) else d)
  {
    RoundTrip(d);
    RoundTripExact(d);
    var n := |d| - 1;
    NothingLost(d, 0, n);
    if d[n] == 0 {
      assert Survivors(d, n) == Survivors(d, n + 1) == [];
      assert d[0..n] + [] == d[..n];
    }
  }

  /** The shortest input that does not come back: a single zero. */
  lemma FinalZeroLost()
    ensures Decode(Encode([0])) == Ok([])
  {
    assert [0][..0] == [];
    RoundTripTail([0]);
  }

  /** And one that ends in a nonzero byte: a full block, a zero, and one byte more. */
  lemma FullBlockZeroLost(b: Byte)
    requires b != 0
    ensures var d := seq(MAX_RUN, _ => b) + [0, b]; Decode(Encode(d)) == Ok(seq(MAX_RUN, _ => b) + [b])
  {
    var run := seq(MAX_RUN, _ => b);
    var d := run + [0, b];
    RunBeforeUnique(d, MAX_RUN, MAX_RUN);
    RoundTrip(d);
    SurvivorsOfRun(d, 0, MAX_RUN);
    assert d[0..MAX_RUN] == run;
    assert Lost(d, MAX_RUN) && !Lost(d, MAX_RUN + 1);
    assert Survivors(d, MAX_RUN + 1) == [b] + Survivors(d, MAX_RUN + 2) == [b];
  }

  // ----- The encoding itself -----

  /** `e` is `d` without its first byte. */
  predicate Behind(d: seq<Byte>, e: seq<Byte>) {
    |d| == |e| + 1 && forall k :: 1 <= k < |d| ==> e[k - 1] == d[k]
  }

  /** Dropping a byte in front of a block does not matter to it. */
  lemma {:induction false} BlockEndShift(d: seq<Byte>, e: seq<Byte>, start: nat, i: nat)
    requires 1 <= start <= i <= |d| && i - start <= MAX_RUN && Behind(d, e)
    ensures BlockEnd(e, start - 1, i - 1) == BlockEnd(d, start, i) - 1
    decreases |d| - i
  {
    if i < |d| && d[i] != 0 && i - start < MAX_RUN {
      BlockEndShift(d, e, start, i + 1);
    }
  }

  /** A block of `e` from `a` to `b`. */
  lemma BlockAt(e: seq<Byte>, a: nat, b: nat, next: nat, data: seq<Byte>)
    requires a < |e| && b == BlockEnd(e, a, a) && next == NextBlock(e, b) && data == e[a..b]
    ensures next <= |e| && |data| <= MAX_RUN && EncodeFrom(e, a) == [Code(|data|)] + data + EncodeFrom(e, next)
  {
    OneBlock(e, a, b, Code(b - a), EncodeFrom(e, next));
  }

  lemma {:induction false} EncodeShift(d: seq<Byte>, e: seq<Byte>, i: nat)
    requires 1 <= i <= |d| && Behind(d, e)
    ensures EncodeFrom(e, i - 1) == EncodeFrom(d, i)
    decreases |d| - i
  {
    if i < |d| {
      var j := BlockEnd(d, i, i);
      Progress(d, i, j);
      EncodeShift(d, e, NextBlock(d, j));
      BlockShift(d, e, i, j, NextBlock(d, j));
    }
  }

  lemma BlockShift(d: seq<Byte>, e: seq<Byte>, i: nat, j: nat, next: nat)
    requires 1 <= i < |d| && Behind(d, e) && j == BlockEnd(d, i, i) && next == NextBlock(d, j)
    requires 1 <= next <= |d| && EncodeFrom(e, next - 1) == EncodeFrom(d, next)
    ensures EncodeFrom(e, i - 1) == EncodeFrom(d, i)
  {
    var a, b, n := i - 1, j - 1, next - 1;
    BlockEndShift(d, e, i, i);
    NextShift(d, e, j);
    SliceShift(d, e, i, j);
    SameBlock(e, a, b, n, d, i, j, next);
  }

  lemma NextShift(d: seq<Byte>, e: seq<Byte>, j: nat)
    requires 1 <= j <= |d| && Behind(d, e)
    ensures NextBlock(e, j - 1) == NextBlock(d, j) - 1
  {}

  lemma SliceShift(d: seq<Byte>, e: seq<Byte>, i: nat, j: nat)
    requires 1 <= i <= j <= |d| && Behind(d, e)
    ensures e[i - 1..j - 1] == d[i..j]
  {}

  lemma Progress(d: seq<Byte>, i: nat, j: nat)
    requires i < |d| && j == BlockEnd(d, i, i)
    ensures i < NextBlock(d, j) <= |d|
  {
    BlockEndStops(d, i, i);
  }

  lemma SameBlock(e: seq<Byte>, a: nat, b: nat, n: nat, d: seq<Byte>, i: nat, j: nat, m: nat)
    requires a < |e| && b == BlockEnd(e, a, a) && n == NextBlock(e, b)
    requires i < |d| && j == BlockEnd(d, i, i) && m == NextBlock(d, j)
    requires e[a..b] == d[i..j] && EncodeFrom(e, n) == EncodeFrom(d, m)
    ensures EncodeFrom(e, a) == EncodeFrom(d, i)
  {
    BlockAt(e, a, b, n, e[a..b]);
    BlockAt(d, i, j, m, d[i..j]);
  }

  lemma {:induction false} BlockEndIs(d: seq<Byte>, i: nat, j: nat)
    requires i <= j <= |d| && j <= MAX_RUN && forall k :: i <= k < j ==> d[k] != 0
    requires j < |d| ==> d[j] == 0 || j == MAX_RUN
    ensures BlockEnd(d, 0, i) == j
    decreases j - i
  {
    if i < j {
      BlockEndIs(d, i + 1, j);
    }
  }

  /** So what comes before a block start does not matter to the rest. */
  lemma {:induction false} SuffixEncodes(d: seq<Byte>, n: nat)
    requires n <= |d|
    ensures EncodeFrom(d, n) == Encode(d[n..])
    decreases n
  {
    if n == 0 {
      assert d[0..] == d;
    } else {
      EncodeShift(d, d[1..], n);
      SuffixEncodes(d[1..], n - 1);
      assert d[1..][n - 1..] == d[n..];
    }
  }

  lemma BlockThenRest(d: seq<Byte>, j: nat, next: nat)
    requires 0 < |d| && j <= next <= |d| && BlockEnd(d, 0, 0) == j <= MAX_RUN && next == NextBlock(d, j)
    ensures Encode(d) == [Code(j)] + d[..j] + Encode(d[next..])
  {
    SuffixEncodes(d, next);
    OneBlock(d, 0, j, Code(j), EncodeFrom(d, next));
    assert d[0..j] == d[..j];
  }

  /** Up to 253 nonzero bytes and the zero after them become one block: one more than their number, and they. */
  lemma EncodeRun(run: seq<Byte>, rest: seq<Byte>)
    requires NoZero(run) && |run| < 254
    ensures Encode(run + [0] + rest) == [(|run| + 1) as Byte] + run + Encode(rest)
  {
    var d, j := run + [0] + rest, |run|;
    BlockEndIs(d, 0, j);
    BlockThenRest(d, j, j + 1);
    assert d[..j] == run && d[j + 1..] == rest;
  }

  /** A full block of 254 takes the code 255, and swallows a zero after it. */
  lemma EncodeFull(run: seq<Byte>, rest: seq<Byte>)
    requires NoZero(run) && |run| == 254
    ensures Encode(run + rest) == [0xFF] + run + Encode(if rest != [] && rest[0] == 0 then rest[1..] else rest)
  {
    var d := run + rest;
    BlockEndIs(d, 0, 254);
    BlockThenRest(d, 254, NextBlock(d, 254));
    CodeValue(254);
    assert d[..254] == run && d[254..] == rest;
    if rest != [] && rest[0] == 0 {
      assert d[255..] == rest[1..];
    }
  }

  /** The last run takes a block without a zero. */
  lemma EncodeLast(run: seq<Byte>)
    requires NoZero(run) && 0 < |run| <= 254
    ensures Encode(run) == [(|run| + 1) as Byte] + run && Encode([]) == []
  {
    BlockEndIs(run, 0, |run|);
    BlockThenRest(run, |run|, |run|);
    assert run[..|run|] == run && run[|run|..] == [];
  }

  lemma {:induction false} EncodeFromNoZero(d: seq<Byte>, i: nat)
    requires i <= |d|
    ensures NoZero(EncodeFrom(d, i))
    decreases |d| - i
  {
    if i < |d| {
      var j := BlockEnd(d, i, i);
      BlockEndStops(d, i, i);
      CodeBelowFull(j - i);
      EncodeFromNoZero(d, NextBlock(d, j));
    }
  }

  /** The encoder never writes the delimiter, and writes nothing only for no input. */
  lemma EncodeNoZero(d: seq<Byte>)
    ensures NoZero(Encode(d)) && (Encode(d) == [] <==> d == [])
  {
    EncodeFromNoZero(d, 0);
    EncodeFromEmpty(d, 0);
  }

  lemma {:induction false} EncodeFromLength(d: seq<Byte>, i: nat)
    requires i <= |d|
    ensures var n := |d| - i; n <= |EncodeFrom(d, i)| <= n + n / MAX_RUN + 1
    decreases |d| - i
  {
    if i < |d| {
      var j := BlockEnd(d, i, i);
      BlockEndStops(d, i, i);
      var next := NextBlock(d, j);
      EncodeFromLength(d, next);
      EncodeFromEmpty(d, next);
    }
  }

  /** The encoding fits the capacity the encoder reserves for it. */
  lemma EncodeLength(d: seq<Byte>)
    ensures |d| <= |Encode(d)| <= |d| + |d| / MAX_RUN + 1
  {
    EncodeFromLength(d, 0);
  }
}
