/**
  COBS framing with blocks of at most 254 data bytes. Decoding does not undo encoding for every input: the encoder
  consumes the zero after a full block, and the decoder does not restore it.
 */
module Cobs {
  import opened Wrappers
  import opened Bytes

  /** Longest run of data bytes in one block. */
  const MAX_RUN: nat := 254

  datatype DecodeError = DecodeError

  // ----- Encoding -----

  /** Where a block whose data starts at `start` and already reaches `i` ends. */
  function BlockEnd(d: seq<Byte>, start: nat, i: nat): (j: nat)
    requires start <= i <= |d| && i - start <= MAX_RUN
    ensures i <= j <= |d| && j - start <= MAX_RUN
    decreases |d| - i
  {
    if i < |d| && d[i] != 0 && i - start < MAX_RUN then BlockEnd(d, start, i + 1) else i
  }

  lemma BlockEndStops(d: seq<Byte>, start: nat, i: nat)
    requires start <= i <= |d| && i - start <= MAX_RUN
    ensures var j := BlockEnd(d, start, i);
      (forall k :: i <= k < j ==> d[k] != 0) && (j < |d| ==> d[j] == 0 || j - start == MAX_RUN)
    decreases |d| - i
  {}

  /** The next block starts after the zero this block stands for, if there is one. */
  function NextBlock(d: seq<Byte>, j: nat): nat
    requires j <= |d|
  {
    if j < |d| && d[j] == 0 then j + 1 else j
  }

  function Code(run: nat): (c: Byte)
    requires run <= MAX_RUN
  {
    (run + 1) as Byte
  }

  lemma CodeValue(run: nat)
    requires run <= MAX_RUN
    ensures Code(run) as int == run + 1
  {
    LowByte(run + 1);
    assert (run + 1) % 256 == run + 1;
  }

  function EncodeFrom(d: seq<Byte>, i: nat): seq<Byte>
    requires i <= |d|
    decreases |d| - i
  {
    if i == |d| then []
    else
      var j := BlockEnd(d, i, i);
      [Code(j - i)] + d[i..j] + EncodeFrom(d, NextBlock(d, j))
  }

  function Encode(d: seq<Byte>): seq<Byte> { EncodeFrom(d, 0) }

  lemma OneBlock(d: seq<Byte>, i: nat, j: nat, code: Byte, rest: seq<Byte>)
    requires i < |d| && j == BlockEnd(d, i, i) && code == Code(j - i) && rest == EncodeFrom(d, NextBlock(d, j))
    ensures EncodeFrom(d, i) == [code] + d[i..j] + rest
  {}

  /** What one turn of the encoder's loop adds. */
  lemma EncodeStep(before: seq<Byte>, code: Byte, block: seq<Byte>, rest: seq<Byte>, all: seq<Byte>, after: seq<Byte>)
    requires all == [code] + block + rest && after == before + [code] + block
    ensures before + all == after + rest
  {
    assert before + ([code] + block + rest) == before + [code] + block + rest;
  }

  method ComputeEncode(data: seq<Byte>) returns (out: seq<Byte>)
    ensures out == Encode(data)
  {
    out := [];
    var i := 0;
    while i < |data|
      invariant i <= |data|
      invariant out + EncodeFrom(data, i) == Encode(data)
    {
      var start, before := i, out;
      i := ScanBlock(data, start);
      var code := Code(i - start);
      out := out + [code];
      out := out + data[start..i];
      ghost var rest := EncodeFrom(data, NextBlock(data, i));
      OneBlock(data, start, i, code, rest);
      EncodeStep(before, code, data[start..i], rest, EncodeFrom(data, start), out);
      if i < |data| && data[i] == 0 {
        i := i + 1;
      }
    }
  }

  /** The inner loop of the encoder. */
  method ScanBlock(data: seq<Byte>, start: nat) returns (i: nat)
    requires start <= |data|
    ensures i == BlockEnd(data, start, start)
  {
    i := start;
    while i < |data| && data[i] != 0 && i - start < MAX_RUN
      invariant start <= i <= |data| && i - start <= MAX_RUN
      invariant BlockEnd(data, start, start) == BlockEnd(data, start, i)
    {
      i := i + 1;
    }
  }

  // ----- Decoding -----

  /** The zero a block restores: none after a full block, none at the end of the input. */
  function Terminator(c: Byte, more: bool): seq<Byte> {
    if c < 0xFF && more then [0] else []
  }

  /** The blocks of `e` up to its end or a zero code byte; nothing if a block is cut short. */
  function DecodeBlocks(e: seq<Byte>): Option<seq<Byte>>
    decreases |e|
  {
    if e == [] || e[0] == 0 then Some([])
    else
      var c := e[0] as int;
      if |e| < c then None
      else
        var zero := Terminator(e[0], c < |e|);
        match DecodeBlocks(e[c..])
        case None => None
        case Some(rest) => Some(e[1..c] + zero + rest)
  }

  function StripZero(s: seq<Byte>): seq<Byte> {
    if s != [] && s[|s| - 1] == 0 then s[..|s| - 1] else s
  }

  function Decode(e: seq<Byte>): Result<seq<Byte>, DecodeError> {
    match DecodeBlocks(e)
    case None => Err(DecodeError)
    case Some(s) => Ok(StripZero(s))
  }

  function Prepend(s: seq<Byte>, o: Option<seq<Byte>>): Option<seq<Byte>> {
    match o
    case None => None
    case Some(r) => Some(s + r)
  }

  lemma PrependNothing(o: Option<seq<Byte>>)
    ensures Prepend([], o) == o
  {
    if o.Some? {
      assert [] + o.value == o.value;
    }
  }

  lemma PrependTwice(a: seq<Byte>, b: seq<Byte>, o: Option<seq<Byte>>)
    ensures Prepend(a, Prepend(b, o)) == Prepend(a + b, o)
  {
    if o.Some? {
      assert a + (b + o.value) == (a + b) + o.value;
    }
  }

  lemma FirstBlock(e: seq<Byte>, c: nat)
    requires e != [] && c == e[0] as int && e[0] != 0
    ensures c > 0
    ensures |e| < c ==> DecodeBlocks(e) == None
    ensures c <= |e| ==> DecodeBlocks(e) == Prepend(e[1..c] + Terminator(e[0], c < |e|), DecodeBlocks(e[c..]))
  {}

  /** What one block of data starting at `i`, with code `c`, contributes. */
  lemma DecodeOneBlock(d: seq<Byte>, i: nat, c: nat)
    requires i < |d| && c == d[i] as int && d[i] != 0
    ensures c > 0
    ensures |d| < i + c ==> DecodeBlocks(d[i..]) == None
    ensures i + c <= |d| ==>
      DecodeBlocks(d[i..]) == Prepend(d[i + 1..i + c] + Terminator(d[i], i + c < |d|), DecodeBlocks(d[i + c..]))
  {
    var e := d[i..];
    FirstBlock(e, c);
    if c <= |e| {
      assert e[1..c] == d[i + 1..i + c] && e[c..] == d[i + c..];
    }
  }

  method ComputeDecode(data: seq<Byte>) returns (r: Result<seq<Byte>, DecodeError>)
    ensures r == Decode(data)
  {
    var out: seq<Byte> := [];
    var i := 0;
    assert data[0..] == data;
    PrependNothing(DecodeBlocks(data));
    while i < |data| && data[i] != 0
      invariant i <= |data|
      invariant DecodeBlocks(data) == Prepend(out, DecodeBlocks(data[i..]))
      decreases |data| - i
    {
      var block, next := ComputeBlock(data, i);
      if block == None {
        return Err(DecodeError);
      }
      PrependTwice(out, block.value, DecodeBlocks(data[next..]));
      out := out + block.value;
      i := next;
    }
    DecodeDone(data[i..], out);
    out := StripZero(out);
    r := Ok(out);
  }

  /** One turn of the decoder's loop: a block, the zero it restores, and where the next one starts. */
  method ComputeBlock(data: seq<Byte>, start: nat) returns (r: Option<seq<Byte>>, i: nat)
    requires start < |data| && data[start] != 0
    ensures start < i
    ensures r == None ==> DecodeBlocks(data[start..]) == None
    ensures r.Some? ==> i <= |data| && DecodeBlocks(data[start..]) == Prepend(r.value, DecodeBlocks(data[i..]))
  {
    var code := data[start];
    var span := code as int;
    DecodeOneBlock(data, start, span);
    r := CopyBlock(data, start + 1, span);
    i := start + span;
    if r.Some? {
      r := Some(r.value + Terminator(code, i < |data|));
    }
  }

  lemma DecodeDone(e: seq<Byte>, out: seq<Byte>)
    requires e == [] || e[0] == 0
    ensures Prepend(out, DecodeBlocks(e)) == Some(out)
  {
    assert out + [] == out;
  }

  /** The inner loop of the decoder: copy the data of one block, unless the input ends first. */
  method CopyBlock(data: seq<Byte>, start: nat, span: nat) returns (r: Option<seq<Byte>>)
    requires start <= |data| && span > 0
    ensures r == if start + span - 1 <= |data| then Some(data[start..start + span - 1]) else None
  {
    var out, i := [], start;
    for n := 1 to span
      invariant i == start + n - 1 <= |data|
      invariant out == data[start..i]
    {
      if i >= |data| {
        return None;
      }
      out := out + [data[i]];
      i := i + 1;
    }
    r := Some(out);
  }
}
