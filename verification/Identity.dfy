/**
  The capture promise in message numbers: which frames are kept out, whatever they hold, and which are let through.
  Types are read off the bytes as numbers, low byte first.
 */
module Identity {
  import opened Wrappers
  import opened Bytes
  import opened Gfdi
  import opened FrameOnWire
  import opened CaptureSpec
  import opened CaptureTheorems
  import Crc
  import Cobs

  // ----- Which frames are secret -----

  /** File transfer, FIT, device information, authentication. */
  predicate Secret(t: int) {
    t == 5003 || t == 5004 || t == 5011 || t == 5012 || t == 5024 || 5101 <= t <= 5112
  }

  /** The number two bytes stand for. */
  function Number(lo: Byte, hi: Byte): int { (lo as int) + 256 * (hi as int) }

  /** A message of such a type, or an ACK of one, or an ACK too short to say. */
  predicate Guarded(t: int, payload: seq<Byte>) {
    if t == 5000 then |payload| < 2 || Secret(Number(payload[0], payload[1])) else Secret(t)
  }

  lemma SecretType(t: Word)
    ensures TypeCarriesIdentity(t) <==> Secret(t as int)
  {}

  lemma AckType(t: Word)
    ensures t == MSG_ACK <==> t as int == 5000
  {}

  lemma CarriesIsGuarded(f: GfdiFrame)
    ensures f.CarriesIdentity() <==> Guarded(f.msgType as int, f.payload)
  {
    AckType(f.msgType);
    SecretType(f.msgType);
    if |f.payload| >= 2 {
      FromLeValue(f.payload[0], f.payload[1]);
      SecretType(FromLe(f.payload[0], f.payload[1]));
    }
  }

  // ----- Which frames are kept out -----

  /** The type in a frame's header: two bytes, or one byte above 5000 if the high bit of the second is set. */
  function HeaderType(f: seq<Byte>): int
    requires |f| >= 6
  {
    if f[3] as int < 128 then Number(f[2], f[3]) else (f[2] as int) + 5000
  }

  lemma HighBit(b: Byte)
    ensures b & 0x80 == 0 <==> b as int < 128
  {}

  lemma ShortType(b: Byte)
    ensures ((b as Word) + 5000) as int == (b as int) + 5000
  {}

  function TypeField(lo: Byte, hi: Byte): Word {
    if hi & 0x80 != 0 then (lo as Word) + 5000 else FromLe(lo, hi)
  }

  lemma TypeFieldIs(lo: Byte, hi: Byte)
    ensures TypeField(lo, hi) as int == if hi as int < 128 then Number(lo, hi) else (lo as int) + 5000
  {
    HighBit(hi);
    if hi & 0x80 != 0 {
      ShortType(lo);
    } else {
      FromLeValue(lo, hi);
    }
  }

  lemma ContentType(f: seq<Byte>)
    requires |f| >= 6
    ensures Content(f).msgType == TypeField(f[2], f[3]) && Content(f).payload == f[4..|f| - 2]
  {}

  lemma ContentIs(f: seq<Byte>)
    requires |f| >= 6
    ensures Content(f).msgType as int == HeaderType(f) && Content(f).payload == f[4..|f| - 2]
  {
    ContentType(f);
    TypeFieldIs(f[2], f[3]);
  }

  /**
    Exactly which bytes between two delimiters the filter keeps out: those that do not decode, are too short or fail
    their CRC, and those whose header or acknowledged type is secret.
   */
  lemma ExcludedExactly(e: seq<Byte>)
    ensures FrameExcluded(e) <==>
      match Cobs.Decode(e)
      case Err(_) => true
      case Ok(f) => |f| < 6 || Crc.Crc16(f) != 0 || Guarded(HeaderType(f), f[4..|f| - 2])
  {
    var d := Cobs.Decode(e);
    if d.Ok? {
      AcceptedIffResidueZero(d.value);
      if |d.value| >= 6 {
        ContentIs(d.value);
        CarriesIsGuarded(Content(d.value));
      }
    }
  }

  /** Every frame built with a secret type, or as an ACK of one, is kept out, whatever its payload. */
  lemma SecretsExcluded(t: Word, payload: seq<Byte>)
    requires Guarded(t as int, payload)
    ensures FrameExcluded(Cobs.Encode(BuildFrame(t, payload)))
  {
    CarriesIsGuarded(GfdiFrame(t, None, payload));
    BuiltIdentityNeverCleared(t, payload);
  }

  /** Every other frame that arrives as sent is let through. */
  lemma OthersCleared(t: Word, payload: seq<Byte>)
    requires Faithful(t, payload) && !Guarded(t as int, payload)
    ensures !FrameExcluded(Cobs.Encode(BuildFrame(t, payload)))
  {
    CarriesIsGuarded(GfdiFrame(t, None, payload));
    FaithfulCleared(t, payload);
  }

  /** In any stream, cut into any chunks, no released chunk has a byte of a secret frame or its closing delimiter. */
  lemma SecretsNeverReleased(bodies: seq<seq<Byte>>, u: seq<Byte>, t: Word, payload: seq<Byte>, w: seq<Byte>, k: nat)
    requires Guarded(t as int, payload)
    requires Flatten(bodies) == u + WrapCobs(BuildFrame(t, payload)) + w
    requires k < |bodies| && k in Keepable(bodies)
    ensures var first, closing := |u| + 1, |u| + 1 + |Cobs.Encode(BuildFrame(t, payload))|;
      ChunkStart(bodies, k) + |bodies[k]| <= first || closing < ChunkStart(bodies, k)
  {
    CarriesIsGuarded(GfdiFrame(t, None, payload));
    IdentityNeverReleased(bodies, u, t, payload, w, k);
  }
}
