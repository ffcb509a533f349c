/** GFDI frames: building, parsing, and which of them carry the device's identity. */
module Gfdi {
  import opened Wrappers
  import opened Bytes
  import Crc
  import Cobs

  const MSG_ACK: Word := 5000
  const MSG_FILE_TRANSFER: Word := 5003
  const MSG_FILE_DATA: Word := 5004
  const MSG_FIT_DEFINITION: Word := 5011
  const MSG_FIT_DATA: Word := 5012
  const MSG_DEVICE_INFO: Word := 5024
  const MSG_PROTOBUF_REQUEST: Word := 5043
  const MSG_PROTOBUF_RESPONSE: Word := 5044
  const MSG_CONFIGURATION: Word := 5050
  const MSG_AUTH_FIRST: Word := 5101
  const MSG_AUTH_LAST: Word := 5112

  const MIN_FRAME: nat := 6

  datatype Error =
    | Crc
    | Cobs
    | FrameTooShort
    | Nak(msgType: Word, status: Byte)
    | MultiLinkRegister(status: Byte)
    | Protobuf
    | Transport

  predicate TypeCarriesIdentity(t: Word) {
    || t == MSG_FILE_TRANSFER || t == MSG_FILE_DATA
    || t == MSG_FIT_DEFINITION || t == MSG_FIT_DATA
    || t == MSG_DEVICE_INFO
    || MSG_AUTH_FIRST <= t <= MSG_AUTH_LAST
  }

  datatype GfdiFrame = GfdiFrame(msgType: Word, txnId: Option<Byte>, payload: seq<Byte>) {
    function AckedType(): Option<Word> {
      if msgType != MSG_ACK || |payload| < 2 then None else Some(FromLe(payload[0], payload[1]))
    }

    predicate CarriesIdentity() {
      if msgType == MSG_ACK then AckedType() == None || TypeCarriesIdentity(AckedType().value)
      else TypeCarriesIdentity(msgType)
    }
  }

  // ----- Parsing -----

  /** Header and payload of a decoded frame, the check value taken on trust. */
  function Content(f: seq<Byte>): GfdiFrame
    requires |f| >= MIN_FRAME
  {
    var payload := f[4..|f| - 2];
    if f[3] & 0x80 != 0 then GfdiFrame((f[2] as Word) + 5000, Some(f[3] & 0x7F), payload)
    else GfdiFrame(FromLe(f[2], f[3]), None, payload)
  }

  function ParseFrame(f: seq<Byte>): Result<GfdiFrame, Error> {
    var n := |f|;
    if n < MIN_FRAME then Err(FrameTooShort)
    else if FromLe(f[n - 2], f[n - 1]) != Crc.Crc16(f[..n - 2]) then Err(Error.Crc)
    else Ok(Content(f))
  }

  function ParseCobsFrame(e: seq<Byte>): Result<GfdiFrame, Error> {
    match Cobs.Decode(e)
    case Err(_) => Err(Error.Cobs)
    case Ok(f) => ParseFrame(f)
  }

  // ----- Building -----

  function Digit(n: nat): Byte { (n % 256) as Byte }

  lemma DigitValue(n: nat)
    ensures Digit(n) as int == n % 256
  {
    LowByte(n);
  }

  /** The length field: the low 16 bits, little-endian; longer lengths wrap. */
  function LengthField(n: nat): seq<Byte> { [Digit(n), Digit(n / 256)] }

  function FrameBody(t: Word, payload: seq<Byte>): seq<Byte> {
    LengthField(2 + 2 + |payload| + 2) + Le(t) + payload
  }

  function BuildFrame(t: Word, payload: seq<Byte>): seq<Byte> {
    FrameBody(t, payload) + Le(Crc.Crc16(FrameBody(t, payload)))
  }

  function BuildAck(orig: Word, status: Byte, payload: seq<Byte>): seq<Byte> {
    BuildFrame(MSG_ACK, Le(orig) + [status] + payload)
  }

  function WrapCobs(f: seq<Byte>): seq<Byte> { [0] + Cobs.Encode(f) + [0] }

  lemma LengthValue(n: nat)
    ensures (Digit(n) as int) + 256 * (Digit(n / 256) as int) == n % 65536
  {
    DigitValue(n);
    DigitValue(n / 256);
    assert n == 65536 * (n / 256 / 256) + 256 * (n / 256 % 256) + n % 256;
  }

  lemma PairValue(f: seq<Byte>, k: nat, w: Word)
    requires k + 2 <= |f| && f[k] == Lo(w) && f[k + 1] == Hi(w)
    ensures (f[k] as int) + 256 * (f[k + 1] as int) == w as int
  {
    WordValue(w);
  }

  lemma LengthBytes(t: Word, payload: seq<Byte>)
    ensures var f, n := BuildFrame(t, payload), |payload| + 6;
      |f| >= 6 && f[0] == Digit(n) && f[1] == Digit(n / 256)
  {}

  /**
    Byte by byte: the length modulo 2^16, the type, the payload and the CRC of all that precedes it, each number low
    byte first.
   */
  lemma FrameBytes(t: Word, payload: seq<Byte>)
    ensures var f := BuildFrame(t, payload);
      && |f| == |payload| + 6
      && (f[0] as int) + 256 * (f[1] as int) == |f| % 65536
      && (f[2] as int) + 256 * (f[3] as int) == t as int
      && f[4..|f| - 2] == payload
      && (f[|f| - 2] as int) + 256 * (f[|f| - 1] as int) == Crc.Crc16(f[..|f| - 2]) as int
  {
    var f := BuildFrame(t, payload);
    BuiltShape(t, payload);
    LengthBytes(t, payload);
    LengthValue(|payload| + 6);
    PairValue(f, 2, t);
    PairValue(f, |f| - 2, Crc.Crc16(FrameBody(t, payload)));
  }

  // ----- Parsing what was built -----

  /** A frame is accepted exactly when it is long enough and its CRC, check value included, is zero. */
  lemma AcceptedIffResidueZero(f: seq<Byte>)
    ensures ParseFrame(f).Ok? <==> |f| >= MIN_FRAME && Crc.Crc16(f) == 0
  {
    var n := |f|;
    if n >= MIN_FRAME {
      Crc.Residue(f[..n - 2], f[n - 2], f[n - 1]);
      assert f[..n - 2] + [f[n - 2], f[n - 1]] == f;
    }
  }

  /** Exactly what becomes of the bytes of a frame: which error, and in which order the checks are made. */
  lemma ParseExactly(e: seq<Byte>)
    ensures ParseCobsFrame(e) ==
      match Cobs.Decode(e)
      case Err(_) => Err(Error.Cobs)
      case Ok(f) =>
        if |f| < 6 then Err(FrameTooShort)
        else if Crc.Crc16(f) != 0 then Err(Error.Crc)
        else Ok(Content(f))
  {
    var d := Cobs.Decode(e);
    if d.Ok? {
      AcceptedIffResidueZero(d.value);
    }
  }

  lemma BuiltShape(t: Word, payload: seq<Byte>)
    ensures var f := BuildFrame(t, payload);
      && |f| == |payload| + MIN_FRAME && f[2] == Lo(t) && f[3] == Hi(t) && f[4..|f| - 2] == payload
      && f[..|f| - 2] == FrameBody(t, payload)
      && f[|f| - 2] == Lo(Crc.Crc16(FrameBody(t, payload))) && f[|f| - 1] == Hi(Crc.Crc16(FrameBody(t, payload)))
  {}

  lemma BuiltAccepted(t: Word, payload: seq<Byte>)
    ensures ParseFrame(BuildFrame(t, payload)) == Ok(Content(BuildFrame(t, payload)))
    ensures Crc.Crc16(BuildFrame(t, payload)) == 0
  {
    var f := BuildFrame(t, payload);
    BuiltShape(t, payload);
    LeRoundTrip(Crc.Crc16(FrameBody(t, payload)));
    AcceptedIffResidueZero(f);
  }

  lemma HighBitOfType(t: Word)
    ensures Hi(t) & 0x80 == 0 <==> t < 0x8000
  {}

  /** Parsing undoes building exactly for types below 0x8000; others read back as compressed headers. */
  lemma ParseBuild(t: Word, payload: seq<Byte>)
    ensures ParseFrame(BuildFrame(t, payload)) == Ok(GfdiFrame(t, None, payload)) <==> t < 0x8000
    ensures t >= 0x8000 ==>
      ParseFrame(BuildFrame(t, payload)) == Ok(GfdiFrame((Lo(t) as Word) + 5000, Some(Hi(t) & 0x7F), payload))
  {
    BuiltShape(t, payload);
    BuiltAccepted(t, payload);
    HighBitOfType(t);
    LeRoundTrip(t);
  }

  lemma ParseAck(orig: Word, status: Byte, payload: seq<Byte>)
    ensures ParseFrame(BuildAck(orig, status, payload)).Ok?
    ensures var f := ParseFrame(BuildAck(orig, status, payload)).value;
      f.msgType == MSG_ACK && f.AckedType() == Some(orig) && f.payload[2..] == [status] + payload
  {
    var p := Le(orig) + [status] + payload;
    ParseBuild(MSG_ACK, p);
    LeRoundTrip(orig);
    assert p[2..] == [status] + payload;
  }

  // ----- Error detection -----

  /** `g` differs from `f`, and only at `i` and `i + 1`. */
  predicate ChangedAt(f: seq<Byte>, g: seq<Byte>, i: nat) {
    && i + 1 < |f| == |g| && f != g
    && forall k :: 0 <= k < |f| && k != i && k != i + 1 ==> f[k] == g[k]
  }

  /**
    A change confined to one or two adjacent bytes of an accepted frame, anywhere in it and across the
    boundary between payload and check value, is always reported as a CRC error.
   */
  lemma AdjacentErrorDetected(f: seq<Byte>, g: seq<Byte>, i: nat)
    requires ParseFrame(f).Ok? && ChangedAt(f, g, i)
    ensures ParseFrame(g) == Err(Error.Crc)
  {
    AcceptedIffResidueZero(f);
    AcceptedIffResidueZero(g);
    var pre, post := f[..i], f[i + 2..];
    assert f == pre + [f[i], f[i + 1]] + post;
    assert g == pre + [g[i], g[i + 1]] + post;
    Crc.AdjacentChangeDetected(pre, f[i], f[i + 1], g[i], g[i + 1], post);
  }

  // ----- Protobuf fragments -----

  /** What is left of a length in 32 bits. */
  function Low32(n: nat): (m: nat)
    ensures m <= n
  {
    n % 0x1_0000_0000
  }

  /** The low 32 bits of `n`, little-endian. */
  function Le32(n: nat): seq<Byte> { [Digit(n), Digit(n / 256), Digit(n / 256 / 256), Digit(n / 256 / 256 / 256)] }

  function FromLe32(a: Byte, b: Byte, c: Byte, d: Byte): nat {
    (a as int) + 256 * (b as int) + 65536 * (c as int) + 16777216 * (d as int)
  }

  lemma Le32RoundTrip(n: nat)
    ensures FromLe32(Digit(n), Digit(n / 256), Digit(n / 256 / 256), Digit(n / 256 / 256 / 256)) == n % 0x1_0000_0000
  {
    DigitValue(n);
    DigitValue(n / 256);
    DigitValue(n / 256 / 256);
    DigitValue(n / 256 / 256 / 256);
    DigitSum(n);
  }

  function U32At(p: seq<Byte>, k: nat): nat
    requires k + 4 <= |p|
  {
    FromLe32(p[k], p[k + 1], p[k + 2], p[k + 3])
  }

  lemma U32AtLe32(p: seq<Byte>, k: nat, n: nat)
    requires k + 4 <= |p| && p[k..k + 4] == Le32(n)
    ensures U32At(p, k) == n % 0x1_0000_0000
  {
    Le32RoundTrip(n);
    var q := p[k..k + 4];
    assert p[k] == q[0] && p[k + 1] == q[1] && p[k + 2] == q[2] && p[k + 3] == q[3];
  }

  lemma DigitSum(n: nat)
    ensures n % 256 + 256 * (n / 256 % 256) + 65536 * (n / 256 / 256 % 256) +
      16777216 * (n / 256 / 256 / 256 % 256) == n % 0x1_0000_0000
  {
    var a := n / 256;
    var b := a / 256;
    var c := b / 256;
    var q := c / 256;
    assert n == n % 256 + 256 * (a % 256 + 256 * (b % 256 + 256 * (c % 256 + 256 * q)));
    var low := n % 256 + 256 * (a % 256) + 65536 * (b % 256) + 16777216 * (c % 256);
    assert n == 0x1_0000_0000 * q + low && 0 <= low < 0x1_0000_0000;
  }

  const FRAG_HEADER: nat := 14

  datatype FragHeader = FragHeader(reqId: Word, offset: nat, totalLen: nat, chunkSize: nat)

  function Min(a: nat, b: nat): nat { if a < b then a else b }

  function FragHeaderOf(p: seq<Byte>): FragHeader
    requires |p| >= FRAG_HEADER
  {
    FragHeader(FromLe(p[0], p[1]), U32At(p, 2), U32At(p, 6), U32At(p, 10))
  }

  function ParseFragHeader(p: seq<Byte>): Result<(FragHeader, seq<Byte>), Error> {
    if |p| < FRAG_HEADER then Err(FrameTooShort)
    else
      var header := FragHeaderOf(p);
      Ok((header, p[FRAG_HEADER..Min(|p|, FRAG_HEADER + header.chunkSize)]))
  }

  function FragPayload(reqId: Word, pb: seq<Byte>): seq<Byte> {
    Le(reqId) + Le32(0) + Le32(|pb|) + Le32(|pb|) + pb
  }

  function BuildProtobufRequest(reqId: Word, pb: seq<Byte>): seq<Byte> {
    BuildFrame(MSG_PROTOBUF_REQUEST, FragPayload(reqId, pb))
  }

  /** Any header and data: each field is read back from its own place, and the data is cut to the chunk size. */
  lemma FragParse(id: Word, offset: nat, total: nat, size: nat, data: seq<Byte>, p: seq<Byte>)
    requires p == Le(id) + Le32(offset) + Le32(total) + Le32(size) + data
    ensures ParseFragHeader(p) ==
      Ok((FragHeader(id, Low32(offset), Low32(total), Low32(size)), data[..Min(|data|, Low32(size))]))
  {
    FragFields(id, offset, total, size, data, p);
    FragHeaderRead(id, offset, total, size, p);
    FragData(data, Low32(size), p);
  }

  lemma FragHeaderRead(id: Word, offset: nat, total: nat, size: nat, p: seq<Byte>)
    requires |p| >= FRAG_HEADER && p[0] == Lo(id) && p[1] == Hi(id)
    requires p[2..6] == Le32(offset) && p[6..10] == Le32(total) && p[10..14] == Le32(size)
    ensures FragHeaderOf(p) == FragHeader(id, Low32(offset), Low32(total), Low32(size))
  {
    LeRoundTrip(id);
    U32AtLe32(p, 2, offset);
    U32AtLe32(p, 6, total);
    U32AtLe32(p, 10, size);
  }

  lemma FragData(data: seq<Byte>, n: nat, p: seq<Byte>)
    requires |p| == FRAG_HEADER + |data| && p[FRAG_HEADER..] == data && FragHeaderOf(p).chunkSize == n
    ensures ParseFragHeader(p) == Ok((FragHeaderOf(p), data[..Min(|data|, n)]))
  {
    assert p[FRAG_HEADER..FRAG_HEADER + Min(|data|, n)] == p[FRAG_HEADER..][..Min(|data|, n)];
  }

  lemma FragFields(id: Word, offset: nat, total: nat, size: nat, data: seq<Byte>, p: seq<Byte>)
    requires p == Le(id) + Le32(offset) + Le32(total) + Le32(size) + data
    ensures |p| == FRAG_HEADER + |data| && p[0] == Lo(id) && p[1] == Hi(id)
    ensures p[2..6] == Le32(offset) && p[6..10] == Le32(total) && p[10..14] == Le32(size) && p[FRAG_HEADER..] == data
  {}

  /** A payload carries the id and the data; data of 4 GB or more is cut to its length modulo 2^32. */
  lemma FragRoundTrip(reqId: Word, pb: seq<Byte>)
    ensures var len := Low32(|pb|);
      ParseFragHeader(FragPayload(reqId, pb)) == Ok((FragHeader(reqId, 0, len, len), pb[..len]))
  {
    FragParse(reqId, 0, |pb|, |pb|, pb, FragPayload(reqId, pb));
  }

  /** And so does the request built from them: type 5043, no transaction id, the id and the data in place. */
  lemma RequestParses(reqId: Word, pb: seq<Byte>) returns (payload: seq<Byte>)
    ensures ParseFrame(BuildProtobufRequest(reqId, pb)) == Ok(GfdiFrame(5043, None, payload))
    ensures var len := Low32(|pb|);
      ParseFragHeader(payload) == Ok((FragHeader(reqId, 0, len, len), pb[..len]))
  {
    payload := FragPayload(reqId, pb);
    ParseBuild(5043, payload);
    FragRoundTrip(reqId, pb);
  }
}
