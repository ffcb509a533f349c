/**
  The client's answers in numbers: what a poll makes of each chunk it reads and of each message it takes up, and what
  the frames it sends say. Every statement is about any state of a session and any link, whichever writes fail.
 */
module Answers {
  import opened Wrappers
  import opened Bytes
  import opened Gfdi
  import opened Multilink
  import opened FrameOnWire
  import opened Shots
  import opened ClientModel
  import opened Accounting
  import opened LostWrites
  import Identity
  import Cobs
  import StreamBuffers

  // ----- What is sent -----

  /** An ACK is a message of type 5000 that names the type acknowledged, then the status, then its own payload. */
  lemma AckSent(t: Word, status: Byte, payload: seq<Byte>) returns (p: seq<Byte>)
    ensures ParseFrame(FrameOf(Ack(t, status, payload))) == Ok(GfdiFrame(5000, None, p))
    ensures |p| == 3 + |payload| && Identity.Number(p[0], p[1]) == t as int && p[2] == status && p[3..] == payload
  {
    p := Le(t) + [status] + payload;
    ParseBuild(5000, p);
    WordValue(t);
  }

  /** The host's capabilities: a message of type 5050, 13 bytes of bitmap, bit 30 alone set. */
  lemma CapabilitiesSent() returns (p: seq<Byte>)
    ensures ParseFrame(FrameOf(HostCapabilities)) == Ok(GfdiFrame(5050, None, p))
    ensures |p| == 14 && p[0] == 13 && forall k :: 1 <= k < 14 ==> p[k] == if k == 1 + 30 / 8 then 0x40 else 0
  {
    p := HOST_CAPABILITIES;
    Bitmap();
    ParseBuild(5050, p);
  }

  lemma Bitmap()
    ensures var p := HOST_CAPABILITIES;
      |p| == 14 && p[0] == 13 && forall k :: 1 <= k < 14 ==> p[k] == if k == 1 + 30 / 8 then 0x40 else 0
  {}

  /** A request is a message of type 5043 that carries its id modulo 2^16 and its data. */
  lemma RequestSent(id: nat, kind: RequestKind, pb: seq<Byte>) returns (p: seq<Byte>)
    ensures ParseFrame(FrameOf(Request(id, kind, pb))) == Ok(GfdiFrame(5043, None, p))
    ensures var len := Low32(|pb|);
      ParseFragHeader(p) == Ok((FragHeader((id % 0x1_0000) as Word, 0, len, len), pb[..len]))
  {
    p := RequestParses((id % 0x1_0000) as Word, pb);
  }

  /** The bytes at `k` spell `text`, after one byte that says how long it is. */
  predicate Spells(p: seq<Byte>, k: nat, text: string) {
    && k + 1 + |text| <= |p| && p[k] as int == |text|
    && forall i :: 0 <= i < |text| ==> p[k + 1 + i] as int == text[i] as int
  }

  /** The host's device information: protocol 150, software 100, no product, unit or packet size, and three names. */
  lemma HostInfoSays()
    ensures var p := HOST_INFO;
      && |p| == 38 && Identity.Number(p[0], p[1]) == 150 && Identity.Number(p[2], p[3]) == 0xFFFF
      && U32At(p, 4) == 0xFFFF_FFFF && Identity.Number(p[8], p[9]) == 100 && Identity.Number(p[10], p[11]) == 0xFFFF
      && Spells(p, 12, "divotmaker") && Spells(p, 23, "Linux") && Spells(p, 29, "Desktop") && p[37] == 1
  {
    HostNumbers();
    HostNames();
  }

  lemma HostNumbers()
    ensures var p := HOST_INFO;
      && |p| == 38 && Identity.Number(p[0], p[1]) == 150 && Identity.Number(p[2], p[3]) == 0xFFFF
      && U32At(p, 4) == 0xFFFF_FFFF && Identity.Number(p[8], p[9]) == 100 && Identity.Number(p[10], p[11]) == 0xFFFF
  {}

  lemma HostNames()
    ensures var p := HOST_INFO;
      |p| == 38 && Spells(p, 12, "divotmaker") && Spells(p, 23, "Linux") && Spells(p, 29, "Desktop") && p[37] == 1
  {
    FirstName();
  }

  lemma FirstName()
    ensures Spells(HOST_INFO, 12, "divotmaker")
  {}

  /** On a link with this MTU each write takes at most 20 bytes and the MTU, and every write but the last takes them. */
  lemma ChunksSent(mtu: nat, handle: Byte, out: Out)
    requires mtu >= 2
    ensures var chunks, size := ChunksFor(mtu, handle, out), if mtu <= 20 then mtu else 20;
      && Flatten(Bodies(chunks)) == WrapCobs(FrameOf(out))
      && (forall i :: 0 <= i < |chunks| ==> 2 <= |chunks[i]| <= size && chunks[i][0] == handle)
      && (forall i :: 0 <= i < |chunks| - 1 ==> |chunks[i]| == size)
  {
    var size := if mtu <= 20 then mtu else 20;
    ChunksCarryData(WrapCobs(FrameOf(out)), handle, size);
    ChunksAreFull(WrapCobs(FrameOf(out)), handle, size);
  }

  // ----- What is read -----

  /** A failed read is an error, and nothing else happens. */
  lemma FailedRead(env: Env, st: State, now: nat)
    requires st.pending == None
    ensures Poll(env, st, Failed, now) == (st, Err(Transport))
  {}

  /** Reading no bytes is as reading nothing. */
  lemma EmptyRead(env: Env, st: State, now: nat)
    ensures Poll(env, st, Chunk([]), now) == Poll(env, st, WouldBlock, now)
  {}

  /** What a queued event does to a poll: it is returned, and nothing is read. */
  lemma QueuedFirst(env: Env, st: State, rd: Read, e: Event, now: nat)
    requires st.pending == Some(e)
    ensures Poll(env, st, rd, now) == (st.(pending := None).Note(Emitted(e, true)), Ok(Some(e)))
  {}

  /** A chunk for the session's handle: its data is appended, or, past 65536 bytes, the buffer emptied with an error. */
  lemma ChunkRead(env: Env, st: State, data: seq<Byte>, now: nat)
    requires st.pending == None && st.phase != Registering
    ensures Poll(env, st, Chunk([st.handle] + data), now) ==
      if |st.buf| + |data| <= 65536 then Poll(env, st.(buf := st.buf + data), WouldBlock, now)
      else (st.(buf := []), Err(FrameTooShort))
  {
    assert ([st.handle] + data)[1..] == data;
  }

  /** A chunk for any other handle is dropped. */
  lemma OtherChunk(env: Env, st: State, chunk: seq<Byte>, now: nat)
    requires st.pending == None && st.phase != Registering && chunk != [] && chunk[0] != st.handle
    ensures Poll(env, st, Chunk(chunk), now) == Poll(env, st, WouldBlock, now)
  {}

  // ----- Registration -----

  /** A register response: 15 bytes or more, of which the client looks at the second, the status and the handle. */
  predicate IsResponse(chunk: seq<Byte>, first: Byte, txn: seq<Byte>, service: seq<Byte>, status: Byte, handle: Byte,
                       flags: Byte, more: seq<Byte>) {
    |txn| == 8 && |service| == 2 && chunk == [first, 1] + txn + service + [status, handle, flags] + more
  }

  lemma ResponseFields(chunk: seq<Byte>, first: Byte, txn: seq<Byte>, service: seq<Byte>, status: Byte, handle: Byte,
                       flags: Byte, more: seq<Byte>)
    requires IsResponse(chunk, first, txn, service, status, handle, flags, more)
    ensures |chunk| >= 15 && chunk[1] == 1 && chunk[12] == status && chunk[13] == handle
  {}

  /** Success moves the session to its handle and on to the handshake. */
  lemma Registers(env: Env, st: State, chunk: seq<Byte>, first: Byte, txn: seq<Byte>, service: seq<Byte>, handle: Byte,
                  flags: Byte, more: seq<Byte>, now: nat)
    requires st.pending == None && st.phase == Registering
    requires IsResponse(chunk, first, txn, service, 0, handle, flags, more)
    ensures Poll(env, st, Chunk(chunk), now) ==
      (st.(handle := handle, phase := WaitDeviceInfo).Note(Emitted(Registered(handle), false)),
       Ok(Some(Registered(handle))))
  {
    ResponseFields(chunk, first, txn, service, 0, handle, flags, more);
  }

  /** The four refusals are errors that name the status, and leave the session registering. */
  lemma RegistrationRefused(env: Env, st: State, chunk: seq<Byte>, first: Byte, txn: seq<Byte>, service: seq<Byte>,
                            status: Byte, handle: Byte, flags: Byte, more: seq<Byte>, now: nat)
    requires st.pending == None && st.phase == Registering && 1 <= status <= 4
    requires IsResponse(chunk, first, txn, service, status, handle, flags, more)
    ensures Poll(env, st, Chunk(chunk), now) == (st, Err(MultiLinkRegister(status)))
  {
    ResponseFields(chunk, first, txn, service, status, handle, flags, more);
  }

  /** Anything else read while registering is data, kept if it has the handle; no frame is taken up yet. */
  lemma DataWhileRegistering(env: Env, st: State, chunk: seq<Byte>, now: nat)
    requires st.pending == None && st.phase == Registering && chunk != []
    requires |chunk| < 15 || chunk[1] != 1 || chunk[12] > 4
    ensures Poll(env, st, Chunk(chunk), now) ==
      if chunk[0] != st.handle then (st, Ok(None))
      else if |st.buf| + |chunk| - 1 <= 65536 then (st.(buf := st.buf + chunk[1..]), Ok(None))
      else (st.(buf := []), Err(FrameTooShort))
  {}

  /** The register command goes back to registering, in whatever phase, if it can be written; nothing else changes. */
  lemma Restarted(env: Env, ops: seq<Op>, ok: bool)
    ensures Run(env, ops + [Start(ok)]) == (if ok then Run(env, ops).(phase := Registering) else Run(env, ops))
    ensures StartSession(Run(env, ops), ok).1 == if ok then Ok(()) else Err(Transport)
  {
    RunPush(env, ops, Start(ok));
  }

  /** An environment update is one request, with the next id, in any phase; an error exactly if it cannot be written. */
  lemma EnvironmentSent(env: Env, st: State, pb: seq<Byte>)
    ensures var (s, r) := SendEnvironment(env, st, pb); var out := Request(st.reqId, Environment, pb);
      && r == (if Goes(env, st, out) then Ok(()) else Err(Transport))
      && s == st.(reqId := (st.reqId + 1) % 65536, attempts := s.attempts, written := s.written,
                  log := st.log + [Tried(out, Goes(env, st, out))])
      && WritesFrame(env, st, s, out)
  {
    RequestIs(env, st, Environment, pb);
    SendIs(env, NextReqId(st), Request(st.reqId, Environment, pb));
  }

  // ----- What is taken up -----

  /** The next poll that reads nothing takes up this message, and leaves `rest` in the buffer. */
  predicate TakesUp(st: State, f: GfdiFrame, rest: seq<Byte>) {
    var (e, after) := StreamBuffers.NextOf(st.buf);
    st.pending == None && e.Some? && ParseCobsFrame(e.value) == Ok(f) && after == rest
  }

  lemma NextWrapped(e: seq<Byte>, rest: seq<Byte>)
    requires e != [] && NoZero(e)
    ensures StreamBuffers.NextOf(([0] + e + [0]) + rest) == (Some(e), rest)
  {
    var buf := ([0] + e + [0]) + rest;
    StreamBuffers.FirstZeroIs(buf, 0, 0);
    StreamBuffers.FirstZeroIs(buf, 1, |e| + 1);
    assert buf[1..|e| + 1] == e && buf[|e| + 2..] == rest;
  }

  /** Such a poll follows whenever the buffer starts with a wrapped message that arrives as sent. */
  lemma BufferedIsTakenUp(st: State, t: Word, payload: seq<Byte>, rest: seq<Byte>)
    requires st.pending == None && Faithful(t, payload) && st.buf == WrapCobs(BuildFrame(t, payload)) + rest
    ensures TakesUp(st, GfdiFrame(t, None, payload), rest)
  {
    ReceivedExactly(t, payload);
    EncodedBuilt(t, payload);
    NextWrapped(Cobs.Encode(BuildFrame(t, payload)), rest);
  }

  /** A frame that does not parse is an error, and is gone. */
  lemma BadFrame(env: Env, st: State, e: seq<Byte>, rest: seq<Byte>, error: Error, now: nat)
    requires st.pending == None && StreamBuffers.NextOf(st.buf) == (Some(e), rest) && ParseCobsFrame(e) == Err(error)
    ensures Poll(env, st, WouldBlock, now) == (st.(buf := rest), Err(error))
  {}

  /** Without a whole frame, a poll changes nothing but that it drops empty segments. */
  lemma NoFrame(env: Env, st: State, now: nat)
    requires st.pending == None && StreamBuffers.NextOf(st.buf).0 == None
    ensures Poll(env, st, WouldBlock, now) == (st.(buf := StreamBuffers.NextOf(st.buf).1), Ok(None))
  {}

  /** The log of a message taken up, handled with result `r`, and reported. */
  function Logged(before: seq<Entry>, t: Word, steps: seq<Entry>, r: Outcome): seq<Entry> {
    before + [Got(t)] + steps + (if r.Ok? then [Done(t)] else [])
    + (if r.Ok? && r.value.Some? then [Emitted(r.value.value, false)] else [])
  }

  lemma PolledAs(env: Env, st: State, f: GfdiFrame, rest: seq<Byte>, now: nat, u: State, r: Outcome, steps: seq<Entry>)
    requires TakesUp(st, f, rest)
    requires Dispatch(env, st.(buf := rest).Note(Got(f.msgType)), f, now) == (u, r)
    requires u.log == st.log + [Got(f.msgType)] + steps
    ensures Poll(env, st, WouldBlock, now) == (u.(log := Logged(st.log, f.msgType, steps, r)), r)
  {
    assert u.log + [] == u.log;
    assert u.log + [Done(f.msgType)] + [] == u.log + [Done(f.msgType)];
  }

  // ----- Acknowledgments from the device -----

  /** The type an ACK names, and its status. */
  predicate Acks(f: GfdiFrame, t: int, status: Byte) {
    f.msgType == 5000 && |f.payload| >= 3 && Identity.Number(f.payload[0], f.payload[1]) == t && f.payload[2] == status
  }

  /** Taken up, and nothing else: not even the phase or a write. */
  predicate NothingDone(st: State, s: State, t: Word, rest: seq<Byte>, steps: seq<Entry>, r: Outcome) {
    s == st.(buf := rest, log := Logged(st.log, t, steps, r))
  }

  /** An ACK of fewer than 3 bytes is ignored. */
  lemma ShortAckIgnored(env: Env, st: State, f: GfdiFrame, rest: seq<Byte>, now: nat)
    requires TakesUp(st, f, rest) && f.msgType == 5000 && |f.payload| < 3
    ensures var (s, r) := Poll(env, st, WouldBlock, now); r == Ok(None) && NothingDone(st, s, 5000, rest, [], r)
  {
    PolledAs(env, st, f, rest, now, st.(buf := rest).Note(Got(5000)), Ok(None), []);
  }

  /** A refusal is an error, in every phase, that names the type refused and the status. */
  lemma NakIsError(env: Env, st: State, f: GfdiFrame, rest: seq<Byte>, t: Word, status: Byte, now: nat)
    requires TakesUp(st, f, rest) && Acks(f, t as int, status) && status != 0
    ensures var (s, r) := Poll(env, st, WouldBlock, now);
      r == Err(Nak(t, status)) && NothingDone(st, s, 5000, rest, [], r)
  {
    SameWord(f.payload[0], f.payload[1], t);
    PolledAs(env, st, f, rest, now, st.(buf := rest).Note(Got(5000)), Err(Nak(t, status)), []);
  }

  lemma SameWord(lo: Byte, hi: Byte, t: Word)
    requires Identity.Number(lo, hi) == t as int
    ensures FromLe(lo, hi) == t
  {
    FromLeValue(lo, hi);
    SameNumber(FromLe(lo, hi), t, Identity.Number(lo, hi));
  }

  lemma SameNumber(v: Word, w: Word, n: int)
    requires v as int == n == w as int
    ensures v == w
  {
    SameValue(v, w);
  }

  /** The ACK of the host's capabilities, when awaited, starts the subscription; the phase moves on in any case. */
  lemma AwaitedAck(env: Env, st: State, f: GfdiFrame, rest: seq<Byte>, now: nat)
    requires TakesUp(st, f, rest) && Acks(f, 5050, 0) && st.phase == WaitCapabilitiesAck
    ensures var (s, r) := Poll(env, st, WouldBlock, now); var out := Request(st.reqId, Subscribe, env.subscribe);
      var ok := Goes(env, st, out);
      && r == (if ok then Ok(Some(HandshakeComplete)) else Err(Transport))
      && s == st.(buf := rest, phase := Subscribing, reqId := (st.reqId + 1) % 65536, attempts := s.attempts,
                  written := s.written, log := Logged(st.log, 5000, [GotAckOf(5050), Tried(out, ok)], r))
      && WritesFrame(env, st, s, out)
  {
    SameWord(f.payload[0], f.payload[1], 5050);
    var st0 := st.(buf := rest).Note(Got(5000));
    var ok := HandshakeDoneIs(env, st0, f.payload);
    var (u, r) := HandleAck(env, st0, f.payload);
    var out := Request(st.reqId, Subscribe, env.subscribe);
    SendIs(env, NextReqId(st0.Note(GotAckOf(5050)).(phase := Subscribing)), out);
    SameGoes(env, st, st0, out);
    assert u.log == st.log + [Got(5000)] + [GotAckOf(5050), Tried(out, ok)];
    PolledAs(env, st, f, rest, now, u, r, [GotAckOf(5050), Tried(out, ok)]);
  }

  /** Of the chunks of `out`, those before the first failed write went out. */
  predicate WritesFrame(env: Env, st: State, s: State, out: Out) {
    s.written == st.written + ChunksOf(env, st, out)[..Granted(env.accepts, st.attempts, |ChunksOf(env, st, out)|)]
  }

  /** Any other ACK with status 0 is noted, and that is all. */
  lemma OtherAck(env: Env, st: State, f: GfdiFrame, rest: seq<Byte>, t: Word, now: nat)
    requires TakesUp(st, f, rest) && Acks(f, t as int, 0) && (t != 5050 || st.phase != WaitCapabilitiesAck)
    ensures var (s, r) := Poll(env, st, WouldBlock, now);
      r == Ok(None) && NothingDone(st, s, 5000, rest, [GotAckOf(t)], r)
  {
    SameWord(f.payload[0], f.payload[1], t);
    PolledAs(env, st, f, rest, now, st.(buf := rest).Note(Got(5000)).Note(GotAckOf(t)), Ok(None), [GotAckOf(t)]);
  }

  // ----- The device's part of the handshake -----

  /** Device information of fewer than 12 bytes is an error, and not acknowledged. */
  lemma ShortDeviceInfo(env: Env, st: State, f: GfdiFrame, rest: seq<Byte>, now: nat)
    requires TakesUp(st, f, rest) && f.msgType == 5024 && |f.payload| < 12
    ensures var (s, r) := Poll(env, st, WouldBlock, now);
      r == Err(FrameTooShort) && NothingDone(st, s, 5024, rest, [], r)
  {
    PolledAs(env, st, f, rest, now, st.(buf := rest).Note(Got(5024)), Err(FrameTooShort), []);
  }

  /** `s` is `st` after one frame was tried in answer to a message, and the message dealt with, with result `r`. */
  predicate Answered(env: Env, st: State, s: State, t: Word, rest: seq<Byte>, phase: Phase, out: Out, r: Outcome) {
    var ok := Goes(env, st, out);
    && s == st.(buf := rest, phase := phase, attempts := s.attempts, written := s.written,
                log := Logged(st.log, t, [Tried(out, ok)], r))
    && WritesFrame(env, st, s, out)
  }

  /** Any other is acknowledged with the host's own; the phase moves on only if that can be written. */
  lemma DeviceInfoAnswered(env: Env, st: State, f: GfdiFrame, rest: seq<Byte>, now: nat)
    requires TakesUp(st, f, rest) && f.msgType == 5024 && |f.payload| >= 12
    ensures var (s, r) := Poll(env, st, WouldBlock, now); var out := Ack(5024, 0, HOST_INFO);
      var ok := Goes(env, st, out);
      && r == (if ok then Ok(None) else Err(Transport))
      && Answered(env, st, s, 5024, rest, if ok then WaitCapabilities else st.phase, out, r)
  {
    var st0 := st.(buf := rest).Note(Got(5024));
    var (u, r) := HandleDeviceInfo(env, st0, f.payload);
    var out := Ack(5024, 0, HOST_INFO);
    SendIs(env, st0, out);
    SameGoes(env, st, st0, out);
    PolledAs(env, st, f, rest, now, u, r, [Tried(out, Goes(env, st, out))]);
  }

  /** Capabilities are acknowledged, then answered with the host's; the phase moves on only if both go out. */
  lemma CapabilitiesAnswered(env: Env, st: State, f: GfdiFrame, rest: seq<Byte>, now: nat)
    returns (acked: bool, answered: bool)
    requires TakesUp(st, f, rest) && f.msgType == 5050
    ensures var (s, r) := Poll(env, st, WouldBlock, now); var ack := Ack(5050, 0, []);
      && acked == Goes(env, st, ack)
      && answered == (acked && Goes(env, st.(attempts := st.attempts + |ChunksOf(env, st, ack)|), HostCapabilities))
      && r == (if answered then Ok(None) else Err(Transport))
      && s == st.(buf := rest, phase := if answered then WaitCapabilitiesAck else st.phase, attempts := s.attempts,
                  written := s.written,
                  log := Logged(st.log, 5050, [Tried(ack, acked)]
                                              + (if acked then [Tried(HostCapabilities, answered)] else []), r))
  {
    var st0 := st.(buf := rest).Note(Got(5050));
    var (u, r) := HandleConfiguration(env, st0);
    acked, answered := CapabilitiesTried(env, st0);
    SameGoes(env, st, st0, Ack(5050, 0, []));
    PolledAs(env, st, f, rest, now, u, r, [Tried(Ack(5050, 0, []), acked)]
                                         + (if acked then [Tried(HostCapabilities, answered)] else []));
  }

  lemma CapabilitiesTried(env: Env, st: State) returns (acked: bool, answered: bool)
    ensures var (u, r) := HandleConfiguration(env, st); var ack := Ack(5050, 0, []);
      && acked == Goes(env, st, ack)
      && answered == (acked && Goes(env, st.(attempts := st.attempts + |ChunksOf(env, st, ack)|), HostCapabilities))
      && r == (if answered then Ok(None) else Err(Transport))
      && u == st.(phase := if answered then WaitCapabilitiesAck else st.phase, attempts := u.attempts,
                  written := u.written,
                  log := st.log + ([Tried(ack, acked)] + (if acked then [Tried(HostCapabilities, answered)] else [])))
  {
    var ack := Ack(5050, 0, []);
    var (s, ok) := SendAck(env, st, 5050, []);
    SendIs(env, st, ack);
    acked, answered := ok, false;
    if ok {
      SendIs(env, s, HostCapabilities);
      SameGoes(env, st.(attempts := st.attempts + |ChunksOf(env, st, ack)|), s, HostCapabilities);
      answered := SendFrame(env, s, HostCapabilities).1;
    }
  }

  // ----- FIT messages, and messages of no interest -----

  /** FIT messages are acknowledged with one zero byte. */
  lemma FitAcked(env: Env, st: State, f: GfdiFrame, rest: seq<Byte>, now: nat)
    requires TakesUp(st, f, rest) && (f.msgType == 5011 || f.msgType == 5012)
    ensures var (s, r) := Poll(env, st, WouldBlock, now); var out := Ack(f.msgType, 0, [0]);
      && r == (if Goes(env, st, out) then Ok(None) else Err(Transport))
      && Answered(env, st, s, f.msgType, rest, st.phase, out, r)
  {
    var st0, out := st.(buf := rest).Note(Got(f.msgType)), Ack(f.msgType, 0, [0]);
    SendIs(env, st0, out);
    SameGoes(env, st, st0, out);
    var (u, r) := FitMessage(env, st0, f.msgType);
    PolledAs(env, st, f, rest, now, u, r, [Tried(out, Goes(env, st, out))]);
  }

  /** Messages of any other type are taken off the buffer, and that is all. */
  lemma OtherMessage(env: Env, st: State, f: GfdiFrame, rest: seq<Byte>, now: nat)
    requires TakesUp(st, f, rest) && f.msgType !in {5000, 5011, 5012, 5024, 5043, 5044, 5050}
    ensures var (s, r) := Poll(env, st, WouldBlock, now);
      r == Ok(None) && NothingDone(st, s, f.msgType, rest, [], r)
  {
    PolledAs(env, st, f, rest, now, st.(buf := rest).Note(Got(f.msgType)), Ok(None), []);
  }

  // ----- Protobuf messages -----

  predicate IsProtobuf(f: GfdiFrame) { f.msgType == 5043 || f.msgType == 5044 }

  /** The envelope is what the data decodes to, once cut to the chunk size of the header. */
  lemma EnvelopeIs(env: Env, id: Word, offset: nat, total: nat, size: nat, data: seq<Byte>, p: seq<Byte>)
    requires p == Le(id) + Le32(offset) + Le32(total) + Le32(size) + data
    ensures EnvelopeOf(env, p) ==
      match env.decode(data[..Min(|data|, Low32(size))])
      case None => Err(Protobuf)
      case Some(e) => Ok(e)
  {
    FragParse(id, offset, total, size, data, p);
  }

  /** A protobuf message of fewer than 14 bytes has none. */
  lemma ShortEnvelope(env: Env, payload: seq<Byte>)
    requires |payload| < 14
    ensures EnvelopeOf(env, payload) == Err(FrameTooShort)
  {}

  /** The state in which the envelope of a message is dealt with. */
  function Opened(st: State, t: Word, rest: seq<Byte>, e: EnvelopeEvent, now: nat): State {
    Noted(st.(buf := rest).Note(Got(t)), e, now)
  }

  lemma ProtobufHandled(env: Env, st: State, f: GfdiFrame, rest: seq<Byte>, now: nat, u: State, r: Outcome,
                        steps: seq<Entry>)
    requires TakesUp(st, f, rest) && IsProtobuf(f)
    requires ProtobufMessage(env, st.(buf := rest).Note(Got(f.msgType)), f.msgType, f.payload, now) == (u, r)
    requires u.log == st.log + [Got(f.msgType)] + steps
    ensures Poll(env, st, WouldBlock, now) == (u.(log := Logged(st.log, f.msgType, steps, r)), r)
  {
    DispatchIs(env, st.(buf := rest).Note(Got(f.msgType)), f, now);
    PolledAs(env, st, f, rest, now, u, r, steps);
  }

  /** A message without an envelope is an error, and not acknowledged. */
  lemma ProtobufRefused(env: Env, st: State, f: GfdiFrame, rest: seq<Byte>, now: nat, error: Error)
    requires TakesUp(st, f, rest) && IsProtobuf(f) && EnvelopeOf(env, f.payload) == Err(error)
    ensures var (s, r) := Poll(env, st, WouldBlock, now);
      r == Err(error) && NothingDone(st, s, f.msgType, rest, [], r)
  {
    ProtobufHandled(env, st, f, rest, now, st.(buf := rest).Note(Got(f.msgType)), Err(error), []);
  }

  predicate SameLink(st: State, s: State) {
    s.handle == st.handle && s.attempts == st.attempts && s.written == st.written
  }

  /**
    `s` is `base` after a message with this envelope was acknowledged, or could not be: the event is reported exactly
    if the acknowledgment goes out.
   */
  predicate Acknowledged(env: Env, st: State, s: State, base: State, t: Word, rest: seq<Byte>, e: EnvelopeEvent,
                         now: nat, event: Option<Event>, r: Outcome) {
    var ack := Ack(t, 0, []);
    var ok := Goes(env, st, ack);
    && r == (if ok then Ok(event) else Err(Transport))
    && s == base.(buf := rest, attempts := s.attempts, written := s.written,
                  log := Logged(st.log, t, [GotEnvelope(e, now, st.phase, st.lastState), Tried(ack, ok)], r))
    && WritesFrame(env, st, s, ack)
  }

  lemma AckOnly(env: Env, st: State, f: GfdiFrame, rest: seq<Byte>, e: EnvelopeEvent, now: nat, base: State,
                event: Option<Event>)
    requires TakesUp(st, f, rest) && IsProtobuf(f) && EnvelopeOf(env, f.payload) == Ok(e)
    requires var st1 := Opened(st, f.msgType, rest, e, now);
      OnEnvelope(env, st1, e, now) == (base.(buf := rest, log := st1.log), Ok(event))
    requires SameLink(st, base)
    ensures var (s, r) := Poll(env, st, WouldBlock, now);
      Acknowledged(env, st, s, base, f.msgType, rest, e, now, event, r)
  {
    var st0, st1 := st.(buf := rest).Note(Got(f.msgType)), Opened(st, f.msgType, rest, e, now);
    var ack := Ack(f.msgType, 0, []);
    var u := base.(buf := rest, log := st1.log);
    var (s, ok) := SendAck(env, u, f.msgType, []);
    HandledIs(env, st0, f.payload, e, now);
    SendIs(env, u, ack);
    SameGoes(env, st, u, ack);
    ProtobufIs(env, st0, f.msgType, f.payload, now, u, Ok(event), s, ok);
    var steps := [GotEnvelope(e, now, st.phase, st.lastState), Tried(ack, ok)];
    assert s.log == st.log + [Got(f.msgType)] + steps;
    ProtobufHandled(env, st, f, rest, now, s, if ok then Ok(event) else Err(Transport), steps);
  }

  /** Answers to environment updates, and errors of the device, are reported as they come. */
  lemma EnvironmentReported(env: Env, st: State, f: GfdiFrame, rest: seq<Byte>, success: bool, now: nat)
    requires TakesUp(st, f, rest) && IsProtobuf(f) && EnvelopeOf(env, f.payload) == Ok(EnvironmentResult(success))
    ensures var (s, r) := Poll(env, st, WouldBlock, now);
      Acknowledged(env, st, s, st, f.msgType, rest, EnvironmentResult(success), now, Some(EnvironmentSet(success)), r)
  {
    AckOnly(env, st, f, rest, EnvironmentResult(success), now, st, Some(EnvironmentSet(success)));
  }

  lemma ErrorReported(env: Env, st: State, f: GfdiFrame, rest: seq<Byte>, detail: seq<Byte>, now: nat)
    requires TakesUp(st, f, rest) && IsProtobuf(f) && EnvelopeOf(env, f.payload) == Ok(ErrorReport(detail))
    ensures var (s, r) := Poll(env, st, WouldBlock, now);
      Acknowledged(env, st, s, st, f.msgType, rest, ErrorReport(detail), now, Some(DeviceError(detail)), r)
  {
    AckOnly(env, st, f, rest, ErrorReport(detail), now, st, Some(DeviceError(detail)));
  }

  /** Three envelopes are acknowledged, and that is all. */
  lemma SilentEnvelope(env: Env, st: State, f: GfdiFrame, rest: seq<Byte>, e: EnvelopeEvent, now: nat)
    requires TakesUp(st, f, rest) && IsProtobuf(f) && EnvelopeOf(env, f.payload) == Ok(e)
    requires e == LevelCheck || e == MonitorReply || e == Unknown
    ensures var (s, r) := Poll(env, st, WouldBlock, now);
      Acknowledged(env, st, s, st, f.msgType, rest, e, now, None, r)
  {
    AckOnly(env, st, f, rest, e, now, st, None);
  }

  /** The answer to the wake request: an awake device is taken to wait, and a Ready is queued behind the report. */
  lemma WakeReported(env: Env, st: State, f: GfdiFrame, rest: seq<Byte>, status: int, now: nat)
    requires TakesUp(st, f, rest) && IsProtobuf(f) && EnvelopeOf(env, f.payload) == Ok(WakeResult(status))
    ensures var (s, r) := Poll(env, st, WouldBlock, now);
      var woken := if st.phase == WakingUp then st.(phase := Active) else st;
      var base := if status == 1 then woken.(lastState := Some(Waiting), pending := Some(Ready)) else woken;
      Acknowledged(env, st, s, base, f.msgType, rest, WakeResult(status), now, Some(Woken(status)), r)
  {
    var woken := if st.phase == WakingUp then st.(phase := Active) else st;
    var base := if status == 1 then woken.(lastState := Some(Waiting), pending := Some(Ready)) else woken;
    AckOnly(env, st, f, rest, WakeResult(status), now, base, Some(Woken(status)));
  }

  /** No shot with this id is remembered that is less than 60 seconds old. */
  predicate IsNew(cache: seq<Arrival>, id: nat, now: nat) {
    forall i :: 0 <= i < |cache| && cache[i].id == id ==> now - cache[i].at >= 60_000_000_000
  }

  /** A shot: remembered in any case, and an event exactly if it is new. */
  lemma ShotReported(env: Env, st: State, f: GfdiFrame, rest: seq<Byte>, shot: ShotData, now: nat)
    requires TakesUp(st, f, rest) && IsProtobuf(f) && EnvelopeOf(env, f.payload) == Ok(ShotResult(shot))
    requires forall i :: 0 <= i < |st.recent| ==> st.recent[i].at <= now
    ensures var (s, r) := Poll(env, st, WouldBlock, now);
      var isNew := IsNew(st.recent, shot.shotId, now);
      var kept := Prune(st.recent, now) + (if isNew then [Arrival(shot.shotId, now)] else []);
      Acknowledged(env, st, s, st.(recent := kept), f.msgType, rest, ShotResult(shot), now,
                   if isNew then Some(Shot(shot)) else None, r)
  {
    var (recent, isNew) := Offer(st.recent, Arrival(shot.shotId, now));
    OfferedIs(st.recent, shot.shotId, now);
    AckOnly(env, st, f, rest, ShotResult(shot), now, st.(recent := recent), if isNew then Some(Shot(shot)) else None);
  }

  lemma OfferedIs(cache: seq<Arrival>, id: nat, now: nat)
    requires forall i :: 0 <= i < |cache| ==> cache[i].at <= now
    ensures var isNew := IsNew(cache, id, now);
      Offer(cache, Arrival(id, now)) == (Prune(cache, now) + (if isNew then [Arrival(id, now)] else []), isNew)
  {
    var c := Prune(cache, now);
    PruneKeeps(cache, now);
    if i :| 0 <= i < |c| && c[i].id == id {
      assert c[i] in cache;
      FreshMeans(now, c[i].at);
    }
    forall i | 0 <= i < |cache| && cache[i].id == id && now - cache[i].at < 60_000_000_000 ensures Knows(c, id) {
      FreshMeans(now, cache[i].at);
      assert cache[i] in c;
    }
    assert c + [] == c;
  }

  /** A state of the device that is the one last seen is no event. */
  lemma StateRepeated(env: Env, st: State, f: GfdiFrame, rest: seq<Byte>, state: DeviceState, now: nat)
    requires TakesUp(st, f, rest) && IsProtobuf(f) && EnvelopeOf(env, f.payload) == Ok(StateChange(state))
    requires st.lastState == Some(state)
    ensures var (s, r) := Poll(env, st, WouldBlock, now);
      Acknowledged(env, st, s, st, f.msgType, rest, StateChange(state), now, None, r)
  {
    AckOnly(env, st, f, rest, StateChange(state), now, st, None);
  }

  /** Any other is one, Ready if the device waits, unless it went to standby while the session is active. */
  lemma StateReported(env: Env, st: State, f: GfdiFrame, rest: seq<Byte>, state: DeviceState, now: nat)
    requires TakesUp(st, f, rest) && IsProtobuf(f) && EnvelopeOf(env, f.payload) == Ok(StateChange(state))
    requires st.lastState != Some(state) && (state != Standby || st.phase != Active)
    ensures var (s, r) := Poll(env, st, WouldBlock, now);
      Acknowledged(env, st, s, st.(lastState := Some(state)), f.msgType, rest, StateChange(state), now,
                   if state == Waiting then Some(Ready) else Some(StateChanged(state)), r)
  {
    AckOnly(env, st, f, rest, StateChange(state), now, st.(lastState := Some(state)),
            if state == Waiting then Some(Ready) else Some(StateChanged(state)));
  }

  /** The answer to the subscription, when it is not awaited, is an event and no more. */
  lemma SubscribedAgain(env: Env, st: State, f: GfdiFrame, rest: seq<Byte>, success: bool, now: nat)
    requires TakesUp(st, f, rest) && IsProtobuf(f) && EnvelopeOf(env, f.payload) == Ok(SubscribeResult(success))
    requires st.phase != Subscribing
    ensures var (s, r) := Poll(env, st, WouldBlock, now);
      Acknowledged(env, st, s, st, f.msgType, rest, SubscribeResult(success), now, Some(Subscribed(success)), r)
  {
    AckOnly(env, st, f, rest, SubscribeResult(success), now, st, Some(Subscribed(success)));
  }

  // ----- Messages that make the client ask for a wake -----

  /**
    `s` is `base` after a wake request was tried and, if that went out, the acknowledgment: the event is reported
    exactly if both go out.
   */
  predicate AskedAndAcknowledged(env: Env, st: State, s: State, base: State, t: Word, rest: seq<Byte>, e: EnvelopeEvent,
                                 now: nat, event: Event, r: Outcome) {
    var wake, ack := Request(st.reqId, Wake, env.wakeup), Ack(t, 0, []);
    var asked := Goes(env, st, wake);
    var acked := asked && Goes(env, st.(attempts := st.attempts + |ChunksOf(env, st, wake)|), ack);
    && r == (if acked then Ok(Some(event)) else Err(Transport))
    && s == base.(buf := rest, reqId := (st.reqId + 1) % 65536, attempts := s.attempts, written := s.written,
                  log := Logged(st.log, t, [GotEnvelope(e, now, st.phase, st.lastState), Tried(wake, asked)]
                                           + (if asked then [Tried(ack, acked)] else []), r))
  }

  /** What the envelope's handler left, before the acknowledgment. */
  predicate AskedFirst(env: Env, st: State, t: Word, rest: seq<Byte>, e: EnvelopeEvent, now: nat, base: State,
                       event: Event, u: State, asked: bool) {
    var st1, wake := Opened(st, t, rest, e, now), Request(st.reqId, Wake, env.wakeup);
    && SameLink(st, base) && base.reqId == st.reqId && asked == Goes(env, st, wake)
    && OnEnvelope(env, st1, e, now) == (u, if asked then Ok(Some(event)) else Err(Transport))
    && Asked(base.(buf := rest, log := st1.log), u, Wake, env.wakeup, asked)
    && (asked ==> u.attempts == st.attempts + |ChunksOf(env, st, wake)|)
  }

  lemma AskFailed(env: Env, st: State, f: GfdiFrame, rest: seq<Byte>, e: EnvelopeEvent, now: nat, base: State,
                  event: Event, u: State)
    requires TakesUp(st, f, rest) && IsProtobuf(f) && EnvelopeOf(env, f.payload) == Ok(e)
    requires AskedFirst(env, st, f.msgType, rest, e, now, base, event, u, false)
    ensures var (s, r) := Poll(env, st, WouldBlock, now);
      AskedAndAcknowledged(env, st, s, base, f.msgType, rest, e, now, event, r)
  {
    var st0 := st.(buf := rest).Note(Got(f.msgType));
    HandledIs(env, st0, f.payload, e, now);
    var steps := [GotEnvelope(e, now, st.phase, st.lastState), Unsent(Request(st.reqId, Wake, env.wakeup))];
    assert u.log == st.log + [Got(f.msgType)] + steps;
    assert steps + [] == steps;
    var (s, ok) := SendAck(env, u, f.msgType, []);
    ProtobufIs(env, st0, f.msgType, f.payload, now, u, Err(Transport), s, ok);
    ProtobufHandled(env, st, f, rest, now, u, Err(Transport), steps);
  }

  function WokenSteps(env: Env, st: State, t: Word, e: EnvelopeEvent, now: nat, acked: bool): seq<Entry> {
    [GotEnvelope(e, now, st.phase, st.lastState), Sent(Request(st.reqId, Wake, env.wakeup))]
    + [Tried(Ack(t, 0, []), acked)]
  }

  lemma AskedThenAcked(env: Env, st: State, t: Word, rest: seq<Byte>, e: EnvelopeEvent, now: nat, base: State,
                       event: Event, u: State, s: State, acked: bool)
    requires AskedFirst(env, st, t, rest, e, now, base, event, u, true) && (s, acked) == SendAck(env, u, t, [])
    ensures var wake := Request(st.reqId, Wake, env.wakeup);
      acked == Goes(env, st.(attempts := st.attempts + |ChunksOf(env, st, wake)|), Ack(t, 0, []))
    ensures s == base.(buf := rest, reqId := (st.reqId + 1) % 65536, attempts := s.attempts, written := s.written,
                       log := st.log + [Got(t)] + WokenSteps(env, st, t, e, now, acked))
  {
    var wake, ack := Request(st.reqId, Wake, env.wakeup), Ack(t, 0, []);
    SendIs(env, u, ack);
    SameGoes(env, st.(attempts := st.attempts + |ChunksOf(env, st, wake)|), u, ack);
    assert s.log == st.log + [Got(t)] + WokenSteps(env, st, t, e, now, acked);
  }

  lemma AskWent(env: Env, st: State, f: GfdiFrame, rest: seq<Byte>, e: EnvelopeEvent, now: nat, base: State,
                event: Event, u: State)
    requires TakesUp(st, f, rest) && IsProtobuf(f) && EnvelopeOf(env, f.payload) == Ok(e)
    requires AskedFirst(env, st, f.msgType, rest, e, now, base, event, u, true)
    ensures var (s, r) := Poll(env, st, WouldBlock, now);
      AskedAndAcknowledged(env, st, s, base, f.msgType, rest, e, now, event, r)
  {
    var st0 := st.(buf := rest).Note(Got(f.msgType));
    var (s, acked) := SendAck(env, u, f.msgType, []);
    HandledIs(env, st0, f.payload, e, now);
    AskedThenAcked(env, st, f.msgType, rest, e, now, base, event, u, s, acked);
    ProtobufIs(env, st0, f.msgType, f.payload, now, u, Ok(Some(event)), s, acked);
    ProtobufHandled(env, st, f, rest, now, s, if acked then Ok(Some(event)) else Err(Transport),
                    WokenSteps(env, st, f.msgType, e, now, acked));
  }

  lemma AskThenAck(env: Env, st: State, f: GfdiFrame, rest: seq<Byte>, e: EnvelopeEvent, now: nat, base: State,
                   event: Event, u: State, asked: bool)
    requires TakesUp(st, f, rest) && IsProtobuf(f) && EnvelopeOf(env, f.payload) == Ok(e)
    requires AskedFirst(env, st, f.msgType, rest, e, now, base, event, u, asked)
    ensures var (s, r) := Poll(env, st, WouldBlock, now);
      AskedAndAcknowledged(env, st, s, base, f.msgType, rest, e, now, event, r)
  {
    if asked {
      AskWent(env, st, f, rest, e, now, base, event, u);
    } else {
      AskFailed(env, st, f, rest, e, now, base, event, u);
    }
  }

  /** The awaited answer to the subscription: the phase moves on in any case. */
  lemma SubscribedAsksWake(env: Env, st: State, f: GfdiFrame, rest: seq<Byte>, success: bool, now: nat)
    requires TakesUp(st, f, rest) && IsProtobuf(f) && EnvelopeOf(env, f.payload) == Ok(SubscribeResult(success))
    requires st.phase == Subscribing
    ensures var (s, r) := Poll(env, st, WouldBlock, now);
      AskedAndAcknowledged(env, st, s, st.(phase := WakingUp), f.msgType, rest, SubscribeResult(success), now,
                           Subscribed(success), r)
  {
    var st1, wake := Opened(st, f.msgType, rest, SubscribeResult(success), now), Request(st.reqId, Wake, env.wakeup);
    var asked := SubscribeResultIs(env, st1, success);
    SameGoes(env, st, st1, wake);
    RequestIs(env, st1.(phase := WakingUp), Wake, env.wakeup);
    AskThenAck(env, st, f, rest, SubscribeResult(success), now, st.(phase := WakingUp), Subscribed(success),
               OnSubscribeResult(env, st1, success).0, asked);
  }

  /** Standby, new, while the session is active: the device is woken again. */
  lemma StandbyAsksWake(env: Env, st: State, f: GfdiFrame, rest: seq<Byte>, now: nat)
    requires TakesUp(st, f, rest) && IsProtobuf(f) && EnvelopeOf(env, f.payload) == Ok(StateChange(Standby))
    requires st.lastState != Some(Standby) && st.phase == Active
    ensures var (s, r) := Poll(env, st, WouldBlock, now);
      AskedAndAcknowledged(env, st, s, st.(lastState := Some(Standby)), f.msgType, rest, StateChange(Standby), now,
                           StateChanged(Standby), r)
  {
    var st1, wake := Opened(st, f.msgType, rest, StateChange(Standby), now), Request(st.reqId, Wake, env.wakeup);
    var asked := StandbyIs(env, st1, Standby);
    SameGoes(env, st, st1, wake);
    AskThenAck(env, st, f, rest, StateChange(Standby), now, st.(lastState := Some(Standby)), StateChanged(Standby),
               OnStateChange(env, st1, Standby).0, asked);
  }
}
