/**
  CRC-16/ARC. The definition works one bit at a time; the loop over nibbles and its 16-entry table
  are proved to compute it. The rest is the algebra of the definition: it is linear over exclusive
  or, it sends only zero to zero, and a word followed by its own check value leaves a zero residue.
 */
module Crc {
  import opened Bytes

  const TABLE: seq<Word> := [
    0x0000, 0xCC01, 0xD801, 0x1400, 0xF001, 0x3C00, 0x2800, 0xE401,
    0xA001, 0x6C00, 0x7800, 0xB401, 0x5000, 0x9C01, 0x8801, 0x4400]

  // ----- The definition: one bit at a time, reflected polynomial, initial value zero -----

  function Xor(s: Word, t: Word): Word { s ^ t }

  function BitStep(s: Word): Word {
    if s & 1 == 1 then (s >> 1) ^ 0xA001 else s >> 1
  }

  function Bits2(s: Word): Word { BitStep(BitStep(s)) }

  function Bits4(s: Word): Word { Bits2(Bits2(s)) }

  function Bits8(s: Word): Word { Bits4(Bits4(s)) }

  function ByteStep(s: Word, b: Byte): Word { Bits8(Xor(s, b as Word)) }

  function CrcFrom(s: Word, data: seq<Byte>): Word
    decreases data
  {
    if data == [] then s else CrcFrom(ByteStep(s, data[0]), data[1..])
  }

  function Crc16(data: seq<Byte>): Word { CrcFrom(0, data) }

  lemma {:induction false} CrcFromAppend(s: Word, a: seq<Byte>, b: seq<Byte>)
    ensures CrcFrom(s, a + b) == CrcFrom(CrcFrom(s, a), b)
    decreases a
  {
    if a == [] {
      assert a + b == b;
    } else {
      assert (a + b)[1..] == a[1..] + b;
      CrcFromAppend(ByteStep(s, a[0]), a[1..], b);
    }
  }

  // ----- Linearity and kernel -----

  lemma OddOdd(s: Word, t: Word)
    requires s & 1 == 1 && t & 1 == 1
    ensures BitStep(s ^ t) == BitStep(s) ^ BitStep(t)
  {}

  lemma OddEven(s: Word, t: Word)
    requires s & 1 == 1 && t & 1 == 0
    ensures BitStep(s ^ t) == BitStep(s) ^ BitStep(t)
  {}

  lemma EvenOdd(s: Word, t: Word)
    requires s & 1 == 0 && t & 1 == 1
    ensures BitStep(s ^ t) == BitStep(s) ^ BitStep(t)
  {}

  lemma EvenEven(s: Word, t: Word)
    requires s & 1 == 0 && t & 1 == 0
    ensures BitStep(s ^ t) == BitStep(s) ^ BitStep(t)
  {}

  lemma LowBit(s: Word)
    ensures s & 1 == 0 || s & 1 == 1
  {}

  lemma BitStepXor(s: Word, t: Word)
    ensures BitStep(s ^ t) == BitStep(s) ^ BitStep(t)
  {
    LowBit(s);
    LowBit(t);
    if s & 1 == 1 {
      if t & 1 == 1 { OddOdd(s, t); } else { OddEven(s, t); }
    } else {
      if t & 1 == 1 { EvenOdd(s, t); } else { EvenEven(s, t); }
    }
  }

  lemma BitStepLinear(s: Word, t: Word)
    ensures BitStep(Xor(s, t)) == Xor(BitStep(s), BitStep(t))
  {
    BitStepXor(s, t);
  }

  lemma Bits2Linear(s: Word, t: Word)
    ensures Bits2(Xor(s, t)) == Xor(Bits2(s), Bits2(t))
  {
    BitStepLinear(s, t);
    BitStepLinear(BitStep(s), BitStep(t));
  }

  lemma Bits4Linear(s: Word, t: Word)
    ensures Bits4(Xor(s, t)) == Xor(Bits4(s), Bits4(t))
  {
    Bits2Linear(s, t);
    Bits2Linear(Bits2(s), Bits2(t));
  }

  lemma Bits8Linear(s: Word, t: Word)
    ensures Bits8(Xor(s, t)) == Xor(Bits8(s), Bits8(t))
  {
    Bits4Linear(s, t);
    Bits4Linear(Bits4(s), Bits4(t));
  }

  lemma XorZero(s: Word, t: Word)
    ensures Xor(s, t) == 0 <==> s == t
  {
    XorCancel(s, t);
    if Xor(s, t) == 0 {
      assert Xor(0, t) == t;
    }
  }

  lemma BitStepKernel(s: Word)
    ensures BitStep(s) == 0 <==> s == 0
  {}

  lemma Bits8Kernel(s: Word)
    ensures Bits8(s) == 0 <==> s == 0
  {
    BitStepKernel(s);
    BitStepKernel(BitStep(s));
    BitStepKernel(Bits2(s));
    BitStepKernel(BitStep(Bits2(s)));
    var u := Bits4(s);
    BitStepKernel(u);
    BitStepKernel(BitStep(u));
    BitStepKernel(Bits2(u));
    BitStepKernel(BitStep(Bits2(u)));
  }

  lemma Bits8Injective(s: Word, t: Word)
    requires Bits8(s) == Bits8(t)
    ensures s == t
  {
    Bits8Linear(s, t);
    XorZero(Bits8(s), Bits8(t));
    Bits8Kernel(Xor(s, t));
    XorZero(s, t);
  }

  lemma XorExchange(s: Word, t: Word, a: Byte, b: Byte)
    ensures Xor(Xor(s, t), (a ^ b) as Word) == Xor(Xor(s, a as Word), Xor(t, b as Word))
  {}

  lemma XorCancel(s: Word, t: Word)
    ensures Xor(Xor(s, t), t) == s && Xor(s, Xor(s, t)) == t
  {}

  lemma ByteStepLinear(s: Word, t: Word, a: Byte, b: Byte)
    ensures ByteStep(Xor(s, t), a ^ b) == Xor(ByteStep(s, a), ByteStep(t, b))
  {
    var a', b' := a as Word, b as Word;
    XorExchange(s, t, a, b);
    Bits8Linear(Xor(s, a'), Xor(t, b'));
  }

  function XorBytes(a: seq<Byte>, b: seq<Byte>): (r: seq<Byte>)
    requires |a| == |b|
    ensures |r| == |a| && forall i :: 0 <= i < |a| ==> r[i] == a[i] ^ b[i]
  {
    seq(|a|, i requires 0 <= i < |a| => a[i] ^ b[i])
  }

  lemma {:induction false} CrcLinear(s: Word, t: Word, a: seq<Byte>, b: seq<Byte>)
    requires |a| == |b|
    ensures CrcFrom(Xor(s, t), XorBytes(a, b)) == Xor(CrcFrom(s, a), CrcFrom(t, b))
    decreases |a|
  {
    if a != [] {
      ByteStepLinear(s, t, a[0], b[0]);
      assert XorBytes(a, b)[1..] == XorBytes(a[1..], b[1..]);
      CrcLinear(ByteStep(s, a[0]), ByteStep(t, b[0]), a[1..], b[1..]);
    }
  }

  /** Distinct states stay distinct over the same bytes. */
  lemma {:induction false} CrcInjective(s: Word, t: Word, a: seq<Byte>)
    requires CrcFrom(s, a) == CrcFrom(t, a)
    ensures s == t
    decreases |a|
  {
    if a != [] {
      var x := a[0] as Word;
      CrcInjective(ByteStep(s, a[0]), ByteStep(t, a[0]), a[1..]);
      Bits8Injective(Xor(s, x), Xor(t, x));
      XorCancel(s, x);
      XorCancel(t, x);
    }
  }

  // ----- The nibble table -----

  lemma TableEntry(n: Word)
    requires n < 16
    ensures n as int < 16 && TABLE[n as int] == Bits4(n)
  {
    if n == 0 {} else if n == 1 {} else if n == 2 {} else if n == 3 {}
    else if n == 4 {} else if n == 5 {} else if n == 6 {} else if n == 7 {}
    else if n == 8 {} else if n == 9 {} else if n == 10 {} else if n == 11 {}
    else if n == 12 {} else if n == 13 {} else if n == 14 {} else { assert n == 15; }
  }

  lemma HighBitsShift4(s: Word)
    ensures Bits4(s & 0xFFF0) == (s >> 4) & 0x0FFF
  {}

  lemma HighByteShift8(s: Word)
    ensures Bits8(s & 0xFF00) == s >> 8
  {}

  lemma Split4(s: Word)
    ensures Bits4(s) == Xor((s >> 4) & 0x0FFF, Bits4(s & 0xF))
  {
    HighBitsShift4(s);
    Bits4Linear(s & 0xFFF0, s & 0xF);
    assert Xor(s & 0xFFF0, s & 0xF) == s;
  }

  /** One table step of the loop is four bit steps, whatever nibble comes in. */
  lemma NibbleStepIsFourBitSteps(s: Word, n: Word)
    requires n < 16
    ensures Xor(Xor((s >> 4) & 0x0FFF, Bits4(s & 0xF)), Bits4(n)) == Bits4(Xor(s, n))
  {
    Bits4Linear(s, n);
    Split4(s);
  }

  lemma NibblesAreByte(s: Word, b: Byte)
    ensures Bits4(Xor(Bits4(Xor(s, (b & 0xF) as Word)), (b >> 4) as Word)) == ByteStep(s, b)
  {
    var lo, hi := (b & 0xF) as Word, (b as Word) & 0xF0;
    assert Xor(s, b as Word) == Xor(Xor(s, lo), hi);
    Bits4Linear(Xor(s, lo), hi);
    HighBitsShift4(b as Word);
    assert hi == (b as Word) & 0xFFF0;
    assert (b >> 4) as Word == ((b as Word) >> 4) & 0x0FFF;
  }

  method ComputeCrc16(data: seq<Byte>) returns (crc: Word)
    ensures crc == Crc16(data)
  {
    crc := 0;
    for i := 0 to |data|
      invariant crc == CrcFrom(0, data[..i])
    {
      crc := ComputeByteStep(crc, data[i]);
      CrcFromAppend(0, data[..i], [data[i]]);
      assert data[..i + 1] == data[..i] + [data[i]];
    }
    assert data[..|data|] == data;
  }

  /** The body of the loop: one byte through the table, low nibble first. */
  method ComputeByteStep(crc: Word, b: Byte) returns (next: Word)
    ensures next == ByteStep(crc, b)
  {
    var tmp := ComputeNibbleStep(crc, (b & 0xF) as Word);
    next := ComputeNibbleStep(tmp, (b >> 4) as Word);
    NibblesAreByte(crc, b);
  }

  method ComputeNibbleStep(s: Word, n: Word) returns (next: Word)
    requires n < 16
    ensures next == Bits4(Xor(s, n))
  {
    TableEntry(s & 0xF);
    TableEntry(n);
    next := Xor(Xor((s >> 4) & 0x0FFF, TABLE[(s & 0xF) as int]), TABLE[n as int]);
    NibbleStepIsFourBitSteps(s, n);
  }

  // ----- Residue -----

  lemma CrcOfTwo(s: Word, a: Byte, b: Byte)
    ensures CrcFrom(s, [a, b]) == ByteStep(ByteStep(s, a), b)
  {
    assert [a, b][1..] == [b];
    assert CrcFrom(ByteStep(s, a), [b]) == CrcFrom(ByteStep(ByteStep(s, a), b), [b][1..]);
  }

  lemma CrcOfOne(s: Word, a: Byte)
    ensures CrcFrom(s, [a]) == ByteStep(s, a)
  {
    assert CrcFrom(ByteStep(s, a), [a][1..]) == ByteStep(s, a);
  }

  lemma HighByte(h: Byte)
    ensures Bits8((h as Word) << 8) == h as Word
  {
    HighByteShift8((h as Word) << 8);
    assert ((h as Word) << 8) & 0xFF00 == (h as Word) << 8;
  }

  lemma FromLeIsXor(lo: Byte, hi: Byte)
    ensures FromLe(lo, hi) == Xor((hi as Word) << 8, lo as Word)
  {}

  lemma XorIsFromLe(c: Word, lo: Byte, hi: Byte)
    ensures Xor(c, lo as Word) == (hi as Word) << 8 <==> c == FromLe(lo, hi)
  {
    var x, h := lo as Word, (hi as Word) << 8;
    FromLeIsXor(lo, hi);
    XorCancel(c, x);
    XorCancel(h, x);
  }

  /** Two bytes bring a state to zero exactly when they are that state, low byte first. */
  lemma ResidueStep(c: Word, lo: Byte, hi: Byte)
    ensures ByteStep(ByteStep(c, lo), hi) == 0 <==> c == FromLe(lo, hi)
  {
    var u, h := Xor(c, lo as Word), (hi as Word) << 8;
    Bits8Kernel(Xor(Bits8(u), hi as Word));
    XorZero(Bits8(u), hi as Word);
    HighByte(hi);
    if Bits8(u) == Bits8(h) {
      Bits8Injective(u, h);
    }
    XorIsFromLe(c, lo, hi);
  }

  /** A frame of body and check value has residue zero exactly when the check value is the body's CRC. */
  lemma Residue(body: seq<Byte>, lo: Byte, hi: Byte)
    ensures Crc16(body + [lo, hi]) == 0 <==> Crc16(body) == FromLe(lo, hi)
  {
    CrcFromAppend(0, body, [lo, hi]);
    CrcOfTwo(Crc16(body), lo, hi);
    ResidueStep(Crc16(body), lo, hi);
  }

  /** A zero residue survives stripping (or adding) a trailing zero byte. */
  lemma ResidueTrailingZero(d: seq<Byte>)
    ensures Crc16(d + [0]) == 0 <==> Crc16(d) == 0
  {
    CrcFromAppend(0, d, [0]);
    assert Xor(Crc16(d), 0) == Crc16(d);
    Bits8Kernel(Crc16(d));
  }

  // ----- Error detection -----

  /** Feeding a byte after eight bit steps is feeding it eight places higher before them. */
  lemma TwoBytesAtOnce(u: Word, b: Byte)
    ensures ByteStep(Bits8(u), b) == Bits8(Bits8(Xor(u, (b as Word) << 8)))
  {
    HighByte(b);
    Bits8Linear(u, (b as Word) << 8);
  }

  lemma TwoBytesDistinct(s: Word, a: Byte, b: Byte, a': Byte, b': Byte)
    requires Xor(Xor(s, a as Word), (b as Word) << 8) == Xor(Xor(s, a' as Word), (b' as Word) << 8)
    ensures a == a' && b == b'
  {}

  lemma TwoByteInjective(s: Word, a: Byte, b: Byte, a': Byte, b': Byte)
    requires ByteStep(ByteStep(s, a), b) == ByteStep(ByteStep(s, a'), b')
    ensures a == a' && b == b'
  {
    var u, v := Xor(s, a as Word), Xor(s, a' as Word);
    var p, q := Xor(u, (b as Word) << 8), Xor(v, (b' as Word) << 8);
    TwoBytesAtOnce(u, b);
    TwoBytesAtOnce(v, b');
    Bits8Injective(Bits8(p), Bits8(q));
    Bits8Injective(p, q);
    TwoBytesDistinct(s, a, b, a', b');
  }

  /** Changing one or two adjacent bytes always changes the CRC. */
  lemma AdjacentChangeDetected(pre: seq<Byte>, a: Byte, b: Byte, a': Byte, b': Byte, post: seq<Byte>)
    requires a != a' || b != b'
    ensures Crc16(pre + [a, b] + post) != Crc16(pre + [a', b'] + post)
  {
    var s := Crc16(pre);
    CrcFromAppend(0, pre + [a, b], post);
    CrcFromAppend(0, pre, [a, b]);
    CrcFromAppend(0, pre + [a', b'], post);
    CrcFromAppend(0, pre, [a', b']);
    CrcOfTwo(s, a, b);
    CrcOfTwo(s, a', b');
    var x, y := ByteStep(ByteStep(s, a), b), ByteStep(ByteStep(s, a'), b');
    if CrcFrom(x, post) == CrcFrom(y, post) {
      CrcInjective(x, y, post);
      TwoByteInjective(s, a, b, a', b');
    }
  }

  lemma CrcOfThree(s: Word, a: Byte, b: Byte, c: Byte)
    ensures CrcFrom(s, [a, b, c]) == ByteStep(ByteStep(ByteStep(s, a), b), c)
  {
    assert [a, b, c] == [a, b] + [c];
    CrcFromAppend(s, [a, b], [c]);
    CrcOfTwo(s, a, b);
    CrcOfOne(CrcFrom(s, [a, b]), c);
  }

  // ----- The check value -----

  lemma Check123()
    ensures CrcFrom(0, [49, 50, 51]) == 0xBA04
  {
    CrcOfThree(0, 49, 50, 51);
  }

  lemma Check456()
    ensures CrcFrom(0xBA04, [52, 53, 54]) == 0x29E4
  {
    CrcOfThree(0xBA04, 52, 53, 54);
  }

  lemma Check789()
    ensures CrcFrom(0x29E4, [55, 56, 57]) == 0xBB3D
  {
    CrcOfThree(0x29E4, 55, 56, 57);
  }

  /** The CRC of the string 123456789, by which implementations of this CRC are told apart. */
  lemma CheckValue()
    ensures Crc16([49, 50, 51, 52, 53, 54, 55, 56, 57]) == 0xBB3D
  {
    var a, b, c := [49, 50, 51], [52, 53, 54], [55, 56, 57];
    Check123();
    Check456();
    Check789();
    CrcFromAppend(0, a, b);
    CrcFromAppend(0, a + b, c);
    assert a + b + c == [49, 50, 51, 52, 53, 54, 55, 56, 57];
  }
}
