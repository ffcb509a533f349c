/** Bytes, 16-bit little-endian words, and runs of nonzero bytes. */
module Bytes {
  type Byte = bv8
  type Word = bv16

  function Lo(w: Word): Byte { (w & 0xFF) as Byte }

  function Hi(w: Word): Byte { (w >> 8) as Byte }

  function Le(w: Word): seq<Byte> { [Lo(w), Hi(w)] }

  function FromLe(lo: Byte, hi: Byte): Word { (lo as Word) | ((hi as Word) << 8) }

  lemma LowByte(n: nat)
    ensures (n % 256) as Byte as int == n % 256
  {
    var b := (n % 256) as Byte;
    assert b as int == n % 256;
  }

  lemma LeRoundTrip(w: Word)
    ensures FromLe(Lo(w), Hi(w)) == w
  {}

  lemma LoValue(w: Word)
    ensures Lo(w) as int == (w & 0xFF) as int
  {}

  lemma HiValue(w: Word)
    ensures 256 * (Hi(w) as int) == (w & 0xFF00) as int
  {
    assert Hi(w) as int == (w >> 8) as int;
  }

  lemma HalvesValue(w: Word)
    ensures ((w & 0xFF) as int) + ((w & 0xFF00) as int) == w as int
  {}

  /** A word is its two bytes, the low one counting ones, the high one counting 256s. */
  lemma WordValue(w: Word)
    ensures (Lo(w) as int) + 256 * (Hi(w) as int) == w as int
  {
    LoValue(w);
    HiValue(w);
    HalvesValue(w);
  }

  lemma WordOfValue(w: Word)
    ensures (w as int) as Word == w
  {}

  lemma SameValue(v: Word, w: Word)
    requires v as int == w as int
    ensures v == w
  {
    WordOfValue(v);
    WordOfValue(w);
  }

  lemma LeOfFromLe(lo: Byte, hi: Byte)
    ensures Lo(FromLe(lo, hi)) == lo && Hi(FromLe(lo, hi)) == hi
  {}

  lemma FromLeValue(lo: Byte, hi: Byte)
    ensures FromLe(lo, hi) as int == (lo as int) + 256 * (hi as int)
  {
    LeOfFromLe(lo, hi);
    WordValue(FromLe(lo, hi));
  }

  /** Length of the run of nonzero bytes that ends just before position `i` of `s`. */
  function RunBefore(s: seq<Byte>, i: nat): (n: nat)
    requires i <= |s|
    ensures n <= i
  {
    if i == 0 || s[i - 1] == 0 then 0 else RunBefore(s, i - 1) + 1
  }

  lemma {:induction false} RunBeforeIsRun(s: seq<Byte>, i: nat)
    requires i <= |s|
    ensures var n := RunBefore(s, i);
      (forall k :: i - n <= k < i ==> s[k] != 0) && (n < i ==> s[i - n - 1] == 0)
  {
    if i > 0 && s[i - 1] != 0 {
      RunBeforeIsRun(s, i - 1);
    }
  }

  /** Nonzero bytes lengthen the run. */
  lemma {:induction false} RunGrows(s: seq<Byte>, i: nat, j: nat)
    requires i <= j <= |s|
    requires forall k :: i <= k < j ==> s[k] != 0
    ensures RunBefore(s, j) == RunBefore(s, i) + (j - i)
  {
    if i < j {
      RunGrows(s, i, j - 1);
    }
  }

  /** The properties in `RunBeforeIsRun` determine the run. */
  lemma {:induction false} RunBeforeUnique(s: seq<Byte>, i: nat, n: nat)
    requires n <= i <= |s|
    requires forall k :: i - n <= k < i ==> s[k] != 0
    requires n < i ==> s[i - n - 1] == 0
    ensures RunBefore(s, i) == n
  {
    if n > 0 {
      RunBeforeUnique(s, i - 1, n - 1);
    }
  }

  /** A run depends only on the bytes before it. */
  lemma {:induction false} RunBeforePrefix(s: seq<Byte>, t: seq<Byte>, i: nat)
    requires i <= |s| && i <= |t| && s[..i] == t[..i]
    ensures RunBefore(s, i) == RunBefore(t, i)
  {
    if i > 0 {
      assert s[i - 1] == s[..i][i - 1] == t[i - 1];
      assert s[..i - 1] == s[..i][..i - 1] == t[..i - 1];
      RunBeforePrefix(s, t, i - 1);
    }
  }

  predicate NoZero(s: seq<Byte>) { forall k :: 0 <= k < |s| ==> s[k] != 0 }

  function Flatten<T>(parts: seq<seq<T>>): seq<T> {
    if parts == [] then [] else Flatten(parts[..|parts| - 1]) + parts[|parts| - 1]
  }

  lemma {:induction false} FlattenAppend<T>(a: seq<seq<T>>, b: seq<seq<T>>)
    ensures Flatten(a + b) == Flatten(a) + Flatten(b)
  {
    if b == [] {
      assert a + b == a;
    } else {
      var b', last := b[..|b| - 1], b[|b| - 1];
      FlattenAppend(a, b');
      assert (a + b)[..|a + b| - 1] == a + b' && (a + b)[|a + b| - 1] == last;
      Associative(Flatten(a), Flatten(b'), last);
    }
  }

  lemma SplitAt<T>(s: seq<T>, n: nat)
    requires n < |s|
    ensures s == s[..n] + [s[n]] + s[n + 1..]
  {}

  lemma {:induction false} FlattenAround<T>(front: seq<seq<T>>, part: seq<T>, back: seq<seq<T>>)
    ensures Flatten(front + [part] + back) == Flatten(front) + part + Flatten(back)
  {
    FlattenAppend(front + [part], back);
    FlattenAppend(front, [part]);
    FlattenOne(part);
  }

  /** One part in the middle of the others. */
  lemma FlattenSplit<T>(parts: seq<seq<T>>, n: nat, part: seq<T>)
    requires n < |parts| && parts[n] == part
    ensures Flatten(parts) == Flatten(parts[..n]) + part + Flatten(parts[n + 1..])
  {
    SplitAt(parts, n);
    FlattenAround(parts[..n], part, parts[n + 1..]);
  }

  lemma Associative<T>(a: seq<T>, b: seq<T>, c: seq<T>)
    ensures a + (b + c) == (a + b) + c
  {}

  lemma FlattenOne<T>(part: seq<T>)
    ensures Flatten([part]) == part
  {
    assert [part][..0] == [];
    assert Flatten<T>([part][..0]) == [];
  }
}
