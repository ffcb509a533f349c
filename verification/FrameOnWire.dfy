/** One frame through CRC, COBS and back: when it survives, when it is silently cut, and how it is classified. */
module FrameOnWire {
  import opened Wrappers
  import opened Bytes
  import opened Gfdi
  import Crc
  import Cobs
  import Lossless = CobsRoundTrip

  /** The frame a receiver makes of what a sender built and encoded. */
  function Received(t: Word, payload: seq<Byte>): Result<GfdiFrame, Error> {
    ParseCobsFrame(Cobs.Encode(BuildFrame(t, payload)))
  }

  /** No zero of the frame closes a full COBS block. */
  predicate NoFullBlockZero(f: seq<Byte>) {
    forall j :: 0 <= j < |f| ==> !Lossless.ClosesFullBlock(f, j)
  }

  /** The CRC of a built frame, as sent. */
  function SentCrc(t: Word, payload: seq<Byte>): Word { Crc.Crc16(FrameBody(t, payload)) }

  /** What a sender can check before sending that decides whether the frame arrives as sent. */
  predicate Faithful(t: Word, payload: seq<Byte>) {
    t < 0x8000 && Hi(SentCrc(t, payload)) != 0 && NoFullBlockZero(BuildFrame(t, payload))
  }

  /** A frame is received as it was sent exactly when `Faithful` holds. */
  lemma ReceivedExactly(t: Word, payload: seq<Byte>)
    ensures Received(t, payload) == Ok(GfdiFrame(t, None, payload)) <==> Faithful(t, payload)
  {
    var f := BuildFrame(t, payload);
    BuiltShape(t, payload);
    ParseBuild(t, payload);
    Lossless.RoundTripExact(f);
    FaithfulMeansNothingLost(t, payload);
    if Cobs.Decode(Cobs.Encode(f)) != Ok(f) {
      Lossless.RoundTripOnlyRemovesZeros(f);
      ShorterFrameHasShorterPayload(t, payload);
    }
  }

  lemma FaithfulMeansNothingLost(t: Word, payload: seq<Byte>)
    ensures var f := BuildFrame(t, payload);
      (forall j :: 0 <= j < |f| ==> !Lossless.Lost(f, j)) <==>
      Hi(SentCrc(t, payload)) != 0 && NoFullBlockZero(f)
  {
    var f := BuildFrame(t, payload);
    BuiltShape(t, payload);
    if forall j :: 0 <= j < |f| ==> !Lossless.Lost(f, j) {
      assert !Lossless.Lost(f, |f| - 1);
      forall j | 0 <= j < |f| ensures !Lossless.ClosesFullBlock(f, j) {
        assert !Lossless.Lost(f, j);
      }
    }
  }

  lemma ShorterFrameHasShorterPayload(t: Word, payload: seq<Byte>)
    requires var f := BuildFrame(t, payload); var r := Cobs.Decode(Cobs.Encode(f)); r.Ok? && |r.value| < |f|
    ensures Received(t, payload).Ok? ==> |Received(t, payload).value.payload| < |payload|
  {
    BuiltShape(t, payload);
  }

  /** Zeros cut off the end of a frame whose CRC, check value included, is zero leave it zero. */
  lemma CutAccepted(f: seq<Byte>, k: nat)
    requires k <= 2 && |f| >= MIN_FRAME && Crc.Crc16(f) == 0
    requires forall i :: |f| - k <= i < |f| ==> f[i] == 0
    ensures var g := f[..|f| - k];
      ParseFrame(g) == if |g| < MIN_FRAME then Err(FrameTooShort) else Ok(Content(g))
  {
    var n := |f|;
    if k >= 1 {
      assert f == f[..n - 1] + [0];
      Crc.ResidueTrailingZero(f[..n - 1]);
    }
    if k == 2 {
      assert f[..n - 1] == f[..n - 2] + [0];
      Crc.ResidueTrailingZero(f[..n - 2]);
    }
    assert f[..n] == f;
    AcceptedIffResidueZero(f[..n - k]);
  }

  lemma CutContent(f: seq<Byte>, k: nat)
    requires |f| >= MIN_FRAME + k
    ensures Content(f[..|f| - k]) == Content(f).(payload := Content(f).payload[..|f| - MIN_FRAME - k])
  {
    assert f[..|f| - k][4..|f| - k - 2] == f[4..|f| - 2][..|f| - MIN_FRAME - k];
  }

  lemma TailCut(f: seq<Byte>, k: nat)
    requires NoFullBlockZero(f) && 2 <= |f| && f[|f| - 1] == 0 && k == if f[|f| - 2] == 0 then 2 else 1
    ensures Cobs.Decode(Cobs.Encode(f)) == Ok(f[..|f| - k])
  {
    Lossless.RoundTripTail(f);
    assert f[..|f| - 1][..|f| - 2] == f[..|f| - 2];
  }

  /**
    A frame whose check value has a zero high byte loses that byte, and a zero low byte too, and still
    passes the CRC check: it is accepted, with its payload one or two bytes short.
   */
  lemma AcceptedShort(t: Word, payload: seq<Byte>)
    requires t < 0x8000 && NoFullBlockZero(BuildFrame(t, payload))
    requires Hi(SentCrc(t, payload)) == 0
    ensures var k := if SentCrc(t, payload) == 0 then 2 else 1;
      Received(t, payload) ==
      if k <= |payload| then Ok(GfdiFrame(t, None, payload[..|payload| - k])) else Err(FrameTooShort)
  {
    var f, c := BuildFrame(t, payload), SentCrc(t, payload);
    BuiltShape(t, payload);
    BuiltAccepted(t, payload);
    ParseBuild(t, payload);
    ZeroWord(c);
    var k := if c == 0 then 2 else 1;
    TailCut(f, k);
    CutAccepted(f, k);
    if k <= |payload| {
      CutContent(f, k);
    }
  }

  lemma ShortFrameNoFullBlock(f: seq<Byte>)
    requires |f| <= Cobs.MAX_RUN
    ensures NoFullBlockZero(f)
  {}

  lemma CrcOfFive(a: Byte, b: Byte, c: Byte, d: Byte, e: Byte)
    ensures Crc.Crc16([a, b, c, d, e]) ==
      Crc.ByteStep(Crc.ByteStep(Crc.ByteStep(Crc.ByteStep(Crc.ByteStep(0, a), b), c), d), e)
  {
    assert [a, b, c, d, e] == [a, b] + [c, d] + [e];
    Crc.CrcFromAppend(0, [a, b] + [c, d], [e]);
    Crc.CrcFromAppend(0, [a, b], [c, d]);
    Crc.CrcOfTwo(0, a, b);
    Crc.CrcOfTwo(Crc.Crc16([a, b]), c, d);
    Crc.CrcOfOne(Crc.Crc16([a, b, c, d]), e);
  }

  lemma ExampleByte1()
    ensures Crc.ByteStep(0, 7) == 0xC241
  {}

  lemma ExampleByte2()
    ensures Crc.ByteStep(0xC241, 0) == 0x3002
  {}

  lemma ExampleByte3()
    ensures Crc.ByteStep(0x3002, 0xB4) == 0xB6B1
  {}

  lemma ExampleByte4()
    ensures Crc.ByteStep(0xB6B1, 0x13) == 0xB937
  {}

  lemma ExampleByte5()
    ensures Crc.ByteStep(0xB937, 55) == 0x00B9
  {}

  lemma CrcOfExample()
    ensures Crc.Crc16([7, 0, 0xB4, 0x13, 55]) == 0x00B9
  {
    CrcOfFive(7, 0, 0xB4, 0x13, 55);
    ExampleByte1();
    ExampleByte2();
    ExampleByte3();
    ExampleByte4();
    ExampleByte5();
  }

  lemma ExampleBody()
    ensures FrameBody(MSG_PROTOBUF_RESPONSE, [55]) == [7, 0, 0xB4, 0x13, 55]
  {
    assert LengthField(7) == [7, 0];
  }

  /** A protobuf response with the one-byte payload 55: it arrives, accepted, with no payload at all. */
  lemma AcceptedShortHappens()
    ensures Received(MSG_PROTOBUF_RESPONSE, [55]) == Ok(GfdiFrame(MSG_PROTOBUF_RESPONSE, None, []))
  {
    ExampleBody();
    CrcOfExample();
    BuiltShape(MSG_PROTOBUF_RESPONSE, [55]);
    ShortFrameNoFullBlock(BuildFrame(MSG_PROTOBUF_RESPONSE, [55]));
    AcceptedShort(MSG_PROTOBUF_RESPONSE, [55]);
    assert [55][..0] == [];
  }

  lemma ZeroWord(w: Word)
    ensures w == 0 <==> Lo(w) == 0 && Hi(w) == 0
  {}

  lemma EncodedBuilt(t: Word, payload: seq<Byte>)
    ensures Cobs.Encode(BuildFrame(t, payload)) != [] && NoZero(Cobs.Encode(BuildFrame(t, payload)))
  {
    BuiltShape(t, payload);
    Lossless.EncodeNoZero(BuildFrame(t, payload));
  }

  // ----- Classification -----

  /** The capture filter keeps such a frame out: it carries identity, or cannot be classified. */
  predicate FrameExcluded(e: seq<Byte>) {
    match ParseCobsFrame(e)
    case Err(_) => true
    case Ok(f) => f.CarriesIdentity()
  }

  /**
    Whatever COBS loses of it and whatever its check value, a frame with an identity header is never
    cleared: the header and the acknowledged type sit in the first 254 bytes.
   */
  lemma IdentityNeverCleared(f: seq<Byte>)
    requires |f| >= MIN_FRAME && Content(f).CarriesIdentity()
    ensures FrameExcluded(Cobs.Encode(f))
  {
    Lossless.RoundTrip(f);
    var g := Cobs.StripZero(Lossless.Survivors(f, 0));
    Lossless.RoundTripPrefix(f, g);
    if ParseFrame(g).Ok? {
      assert g[2] == f[2] && g[3] == f[3];
      SameHeaderSameClass(f, g);
    }
  }

  lemma SameHeaderSameClass(f: seq<Byte>, g: seq<Byte>)
    requires MIN_FRAME <= |g| <= |f| && g[2] == f[2] && g[3] == f[3]
    requires |g| >= 8 ==> g[4] == f[4] && g[5] == f[5]
    requires Content(f).CarriesIdentity()
    ensures Content(g).CarriesIdentity()
  {
    var p, q := f[4..|f| - 2], g[4..|g| - 2];
    if |g| >= 8 {
      assert p[0] == f[4] && p[1] == f[5] && q[0] == g[4] && q[1] == g[5];
    }
  }

  lemma IdentityTypesAreLow(t: Word)
    requires TypeCarriesIdentity(t) || t == MSG_ACK
    ensures t < 0x8000
  {}

  /** In particular for every frame the builders make, of an identity type or an ACK of one. */
  lemma BuiltIdentityNeverCleared(t: Word, payload: seq<Byte>)
    requires GfdiFrame(t, None, payload).CarriesIdentity()
    ensures FrameExcluded(Cobs.Encode(BuildFrame(t, payload)))
  {
    var f := BuildFrame(t, payload);
    BuiltShape(t, payload);
    ParseBuild(t, payload);
    BuiltAccepted(t, payload);
    IdentityTypesAreLow(t);
    IdentityNeverCleared(f);
  }

  /** A faithful frame without identity is cleared. */
  lemma FaithfulCleared(t: Word, payload: seq<Byte>)
    requires Faithful(t, payload)
    ensures FrameExcluded(Cobs.Encode(BuildFrame(t, payload))) <==> GfdiFrame(t, None, payload).CarriesIdentity()
  {
    ReceivedExactly(t, payload);
  }
}
