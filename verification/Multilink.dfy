/** MultiLink: the handle byte on every chunk, and the register response. */
module Multilink {
  import opened Wrappers
  import opened Bytes

  datatype RegisterStatus = Success | InvalidServiceId | PendingAuth | AlreadyInUse | Rejected {
    function Code(): Byte {
      match this
      case Success => 0
      case InvalidServiceId => 1
      case PendingAuth => 2
      case AlreadyInUse => 3
      case Rejected => 4
    }
  }

  function StatusFrom(v: Byte): Option<RegisterStatus> {
    if v == 0 then Some(Success)
    else if v == 1 then Some(InvalidServiceId)
    else if v == 2 then Some(PendingAuth)
    else if v == 3 then Some(AlreadyInUse)
    else if v == 4 then Some(Rejected)
    else None
  }

  /** Status and handle of a register response; nothing for any other chunk. */
  function ParseRegisterResponse(data: seq<Byte>): Option<(RegisterStatus, Byte)> {
    if |data| < 15 || data[1] != 1 then None
    else
      match StatusFrom(data[12])
      case None => None
      case Some(status) => Some((status, data[13]))
  }

  function StripHandle(chunk: seq<Byte>, handle: Byte): Option<seq<Byte>> {
    if chunk != [] && chunk[0] == handle then Some(chunk[1..]) else None
  }

  /** What the handle byte leaves of each chunk: nothing of an empty chunk. */
  function Body(chunk: seq<Byte>): seq<Byte> {
    if chunk == [] then [] else chunk[1..]
  }

  function Bodies(chunks: seq<seq<Byte>>): (r: seq<seq<Byte>>)
    ensures |r| == |chunks|
  {
    seq(|chunks|, i requires 0 <= i < |chunks| => Body(chunks[i]))
  }

  function SplitInto(data: seq<Byte>, handle: Byte, size: nat): seq<seq<Byte>>
    requires size > 0
  {
    if data == [] then []
    else if |data| <= size then [[handle] + data]
    else [[handle] + data[..size]] + SplitInto(data[size..], handle, size)
  }

  function ChunkWithHandle(data: seq<Byte>, handle: Byte, mtu: nat): seq<seq<Byte>> {
    if mtu <= 1 then [] else SplitInto(data, handle, mtu - 1)
  }

  lemma FirstPiece(handle: Byte, piece: seq<Byte>, rest: seq<seq<Byte>>)
    ensures Flatten(Bodies([[handle] + piece] + rest)) == piece + Flatten(Bodies(rest))
  {
    var c := [handle] + piece;
    assert Body(c) == piece;
    assert Bodies([c] + rest) == [piece] + Bodies(rest);
    FlattenAppend([piece], Bodies(rest));
    FlattenOne(piece);
  }

  lemma SplitStep(data: seq<Byte>, handle: Byte, size: nat)
    requires size > 0 && data != []
    ensures var n := if |data| <= size then |data| else size;
      SplitInto(data, handle, size) == [[handle] + data[..n]] + SplitInto(data[n..], handle, size)
  {
    if |data| <= size {
      assert data[..|data|] == data && data[|data|..] == [];
      assert SplitInto(data[|data|..], handle, size) == [];
    }
  }

  lemma {:induction false} SplitIntoJoins(data: seq<Byte>, handle: Byte, size: nat)
    requires size > 0
    ensures Flatten(Bodies(SplitInto(data, handle, size))) == data
    decreases |data|
  {
    if data == [] {
      assert Bodies([]) == [];
    } else {
      var n := if |data| <= size then |data| else size;
      SplitStep(data, handle, size);
      var rest := SplitInto(data[n..], handle, size);
      SplitIntoJoins(data[n..], handle, size);
      FirstPiece(handle, data[..n], rest);
      assert Flatten(Bodies(SplitInto(data, handle, size))) == data[..n] + Flatten(Bodies(rest));
    }
  }

  predicate Fits(c: seq<Byte>, handle: Byte, size: nat) { 2 <= |c| <= size + 1 && c[0] == handle }

  lemma {:induction false} SplitIntoFits(data: seq<Byte>, handle: Byte, size: nat, i: nat)
    requires size > 0 && i < |SplitInto(data, handle, size)|
    ensures Fits(SplitInto(data, handle, size)[i], handle, size)
    decreases |data|
  {
    SplitStep(data, handle, size);
    if i > 0 {
      var n := if |data| <= size then |data| else size;
      SplitIntoFits(data[n..], handle, size, i - 1);
    }
  }

  /** Every chunk but the last is full. */
  lemma {:induction false} SplitIntoFull(data: seq<Byte>, handle: Byte, size: nat, i: nat)
    requires size > 0 && i + 1 < |SplitInto(data, handle, size)|
    ensures |SplitInto(data, handle, size)[i]| == size + 1
    decreases |data|
  {
    SplitStep(data, handle, size);
    if i > 0 {
      var n := if |data| <= size then |data| else size;
      SplitIntoFull(data[n..], handle, size, i - 1);
    }
  }

  /** So no fewer chunks would do, and an MTU of 0 or 1 has room for none. */
  lemma ChunksAreFull(data: seq<Byte>, handle: Byte, mtu: nat)
    ensures var chunks := ChunkWithHandle(data, handle, mtu);
      && (forall i :: 0 <= i < |chunks| - 1 ==> |chunks[i]| == mtu)
      && (mtu <= 1 ==> chunks == [])
  {
    var chunks := ChunkWithHandle(data, handle, mtu);
    forall i | 0 <= i < |chunks| - 1 ensures |chunks[i]| == mtu {
      SplitIntoFull(data, handle, mtu - 1, i);
    }
  }

  /** Chunks for any MTU of at least 2 carry the handle, fit, and together carry the data, in order. */
  lemma ChunksCarryData(data: seq<Byte>, handle: Byte, mtu: nat)
    requires mtu >= 2
    ensures var chunks := ChunkWithHandle(data, handle, mtu);
      && Flatten(Bodies(chunks)) == data
      && forall i :: 0 <= i < |chunks| ==>
           2 <= |chunks[i]| <= mtu && StripHandle(chunks[i], handle) == Some(Body(chunks[i]))
  {
    SplitIntoJoins(data, handle, mtu - 1);
    var chunks := ChunkWithHandle(data, handle, mtu);
    forall i | 0 <= i < |chunks|
      ensures 2 <= |chunks[i]| <= mtu && StripHandle(chunks[i], handle) == Some(Body(chunks[i]))
    {
      SplitIntoFits(data, handle, mtu - 1, i);
    }
  }
}
