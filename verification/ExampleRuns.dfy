/** Concrete sessions: frames as bytes on a link, and what the client makes of them when single writes fail. */
module ExampleRuns {
  import opened Wrappers
  import opened Bytes
  import opened Gfdi
  import opened Multilink
  import opened FrameOnWire
  import opened Shots
  import opened ClientModel
  import opened Ledger
  import opened Accounting
  import opened LostWrites
  import Crc
  import Cobs
  import Lossless = CobsRoundTrip
  import StreamBuffers

  // ----- A frame delivered -----

  /** Nothing is buffered or queued, and the handle is the initial one. */
  predicate Listening(st: State) { st.handle == 0 && st.buf == [] && st.pending == None }

  /** No frame but an answered wake that found the device awake queues anything. */
  predicate QueuesNothing(env: Env, f: GfdiFrame) {
    f.msgType == MSG_PROTOBUF_RESPONSE ==> EnvelopeOf(env, f.payload) != Ok(WakeResult(1))
  }

  /** What listening depends on is left alone. */
  predicate SameInput(st: State, s: State) { s.handle == st.handle && s.buf == st.buf && s.pending == st.pending }

  lemma EnvelopeKeepsInput(env: Env, st: State, e: EnvelopeEvent, now: nat)
    requires e != WakeResult(1)
    ensures SameInput(st, OnEnvelope(env, st, e, now).0)
  {
    match e {
      case SubscribeResult(success) =>
        if st.phase == Subscribing {
          var ok := SubscribeResultIs(env, st, success);
        }
      case WakeResult(status) => WakeResultIs(st, status);
      case StateChange(state) =>
        if st.lastState != Some(state) && AsksWake(st, state) {
          var ok := StandbyIs(env, st, state);
        } else {
          StateChangeIs(env, st, state);
        }
      case ShotResult(_) =>
      case _ => OtherIs(env, st, e, now);
    }
  }

  lemma AckKeepsInput(env: Env, st: State, t: Word, payload: seq<Byte>)
    ensures SameInput(st, SendAck(env, st, t, payload).0)
  {
    AckIs(env, st, t, payload);
  }

  lemma ProtobufKeepsInput(env: Env, st: State, t: Word, payload: seq<Byte>, now: nat)
    requires EnvelopeOf(env, payload) != Ok(WakeResult(1))
    ensures SameInput(st, ProtobufMessage(env, st, t, payload, now).0)
  {
    var (u, r) := HandleProtobuf(env, st, payload, now);
    var (s, ok) := SendAck(env, u, t, []);
    var e := EnvelopeOf(env, payload);
    if e.Ok? {
      HandledIs(env, st, payload, e.value, now);
      EnvelopeKeepsInput(env, Noted(st, e.value, now), e.value, now);
    }
    ProtobufIs(env, st, t, payload, now, u, r, s, ok);
    AckKeepsInput(env, u, t, []);
  }

  lemma AckFrameKeepsInput(env: Env, st: State, payload: seq<Byte>)
    ensures SameInput(st, HandleAck(env, st, payload).0)
  {
    if StartsSubscription(st, payload) {
      var ok := HandshakeDoneIs(env, st, payload);
    } else {
      AckFrameIs(env, st, payload);
    }
  }

  lemma AfterKeepsInput(env: Env, st: State, f: GfdiFrame, now: nat)
    requires QueuesNothing(env, f) && f.msgType != MSG_PROTOBUF_REQUEST
    ensures SameInput(st, AfterFrame(env, st, f, now))
  {
    var st0 := st.Note(Got(f.msgType));
    var (s, r) := Dispatch(env, st0, f, now);
    DispatchIs(env, st0, f, now);
    if f.msgType == MSG_DEVICE_INFO {
      AckKeepsInput(env, st0, MSG_DEVICE_INFO, HOST_INFO);
    } else if f.msgType == MSG_CONFIGURATION {
      var acked, answered := ConfigurationIs(env, st0);
    } else if f.msgType == MSG_ACK {
      AckFrameKeepsInput(env, st0, f.payload);
    } else if f.msgType == MSG_FIT_DEFINITION || f.msgType == MSG_FIT_DATA {
      AckKeepsInput(env, st0, f.msgType, [0]);
    } else if f.msgType == MSG_PROTOBUF_RESPONSE {
      ProtobufKeepsInput(env, st0, f.msgType, f.payload, now);
    }
    AfterIs(env, st, f, now, s, r);
  }

  /** The chunk that carries one small frame, for the initial handle. */
  function ChunkOf(f: GfdiFrame): seq<Byte> { [0] + WrapCobs(BuildFrame(f.msgType, f.payload)) }

  /** The chunk arrives, and then nothing for one more poll. */
  function Deliver(f: GfdiFrame, now: nat): seq<Op> { [DoPoll(Chunk(ChunkOf(f)), now), DoPoll(WouldBlock, now)] }

  lemma WrappedNext(e: seq<Byte>)
    requires e != [] && NoZero(e)
    ensures StreamBuffers.NextOf([0] + e + [0]) == (Some(e), [])
  {
    var buf := [0] + e + [0];
    StreamBuffers.FirstZeroIs(buf, 0, 0);
    StreamBuffers.FirstZeroIs(buf, 1, |e| + 1);
    assert buf[1..|e| + 1] == e && buf[|e| + 2..] == [];
  }

  lemma EmptyNext()
    ensures StreamBuffers.NextOf([]) == (None, [])
  {}

  lemma ChunkShape(f: GfdiFrame, e: seq<Byte>)
    requires e == Cobs.Encode(BuildFrame(f.msgType, f.payload)) && |f.payload| <= 1000
    ensures ParseRegisterResponse(ChunkOf(f)) == None
    ensures StripHandle(ChunkOf(f), 0) == Some([0] + e + [0]) && |e| <= 2000
    ensures e != [] && NoZero(e)
  {
    EncodedBuilt(f.msgType, f.payload);
    BuiltShape(f.msgType, f.payload);
    Lossless.EncodeLength(BuildFrame(f.msgType, f.payload));
    assert ChunkOf(f)[1..] == [0] + e + [0] && ChunkOf(f)[1] == 0;
  }

  predicate Small(f: GfdiFrame) {
    f.txnId == None && |f.payload| <= 1000 && Faithful(f.msgType, f.payload) && f.msgType != MSG_PROTOBUF_REQUEST
  }

  /**
    The chunk of a frame that arrives as sent is handled as that frame, at once or, while registering, at the next
    poll.
   */
  lemma TwoPolls(env: Env, st: State, f: GfdiFrame, now: nat)
    requires Listening(st) && Small(f) && QueuesNothing(env, f)
    ensures var s := AfterFrame(env, st, f, now);
      && Listening(s)
      && Poll(env, Poll(env, st, Chunk(ChunkOf(f)), now).0, WouldBlock, now).0 == s
  {
    var e := Cobs.Encode(BuildFrame(f.msgType, f.payload));
    var wrapped := [0] + e + [0];
    ChunkShape(f, e);
    WrappedNext(e);
    ReceivedExactly(f.msgType, f.payload);
    AfterKeepsInput(env, st, f, now);
    var fed := st.(buf := wrapped);
    assert [] + wrapped == wrapped;
    assert fed.(buf := []) == st;
    AfterIsPoll(env, fed, e, [], f, now);
    if st.phase == Registering {
      FedWhileRegistering(env, st, ChunkOf(f), wrapped, now);
    } else {
      FedAndHandled(env, st, ChunkOf(f), wrapped, now);
      NothingMore(env, AfterFrame(env, st, f, now), now);
    }
  }

  lemma FedWhileRegistering(env: Env, st: State, chunk: seq<Byte>, data: seq<Byte>, now: nat)
    requires Listening(st) && st.phase == Registering && chunk != [] && ParseRegisterResponse(chunk) == None
    requires StripHandle(chunk, 0) == Some(data) && |data| <= 3000
    ensures Poll(env, st, Chunk(chunk), now).0 == st.(buf := data)
  {
    assert [] + data == data;
  }

  lemma FedAndHandled(env: Env, st: State, chunk: seq<Byte>, data: seq<Byte>, now: nat)
    requires Listening(st) && st.phase != Registering && chunk != []
    requires StripHandle(chunk, 0) == Some(data) && |data| <= 3000
    ensures Poll(env, st, Chunk(chunk), now).0 == Poll(env, st.(buf := data), WouldBlock, now).0
  {
    assert [] + data == data;
  }

  lemma NothingMore(env: Env, st: State, now: nat)
    requires Listening(st)
    ensures Poll(env, st, WouldBlock, now).0 == st
  {
    EmptyNext();
  }

  /** So a session goes on with the frame as its next message. */
  lemma Delivered(env: Env, ops: seq<Op>, f: GfdiFrame, now: nat)
    requires Listening(Run(env, ops)) && Small(f) && QueuesNothing(env, f)
    ensures Run(env, ops + Deliver(f, now)) == AfterFrame(env, Run(env, ops), f, now)
    ensures Listening(Run(env, ops + Deliver(f, now)))
  {
    var first := DoPoll(Chunk(ChunkOf(f)), now);
    RunPush(env, ops, first);
    RunPush(env, ops + [first], DoPoll(WouldBlock, now));
    assert ops + Deliver(f, now) == ops + [first] + [DoPoll(WouldBlock, now)];
    TwoPolls(env, Run(env, ops), f, now);
  }

  // ----- The frames of the examples -----

  const EXAMPLE_SHOT: ShotData := ShotData(7, None, None, [])

  /** Data of one byte decodes, to one of two events. */
  function ExampleDecode(first: EnvelopeEvent, second: EnvelopeEvent, pb: seq<Byte>): Option<EnvelopeEvent> {
    if |pb| != 1 then None else Some(if pb[0] == 1 then first else second)
  }

  /** A protobuf response with one byte of data. */
  function ExampleFrame(b: Byte): GfdiFrame { GfdiFrame(MSG_PROTOBUF_RESPONSE, None, FragPayload(1, [b])) }

  /** The device capabilities, and the ACK of the host's. */
  const CAPABILITIES: GfdiFrame := GfdiFrame(MSG_CONFIGURATION, None, [])
  const CAPABILITIES_ACK: GfdiFrame := GfdiFrame(MSG_ACK, None, [0xBA, 0x13, 0])

  lemma Header1()
    ensures Crc.CrcFrom(0, [21, 0, 0xB4]) == 0xB311
  {
    Crc.CrcOfThree(0, 21, 0, 0xB4);
  }

  lemma Header2()
    ensures Crc.CrcFrom(0xB311, [0x13, 1, 0]) == 0x60D5
  {
    Crc.CrcOfThree(0xB311, 0x13, 1, 0);
  }

  lemma Header3()
    ensures Crc.CrcFrom(0x60D5, [0, 0, 0]) == 0xF839
  {
    Crc.CrcOfThree(0x60D5, 0, 0, 0);
  }

  lemma Header4()
    ensures Crc.CrcFrom(0xF839, [0, 1, 0]) == 0x5D92
  {
    Crc.CrcOfThree(0xF839, 0, 1, 0);
  }

  lemma Header5()
    ensures Crc.CrcFrom(0x5D92, [0, 0, 1]) == 0xBD58
  {
    Crc.CrcOfThree(0x5D92, 0, 0, 1);
  }

  lemma Header6()
    ensures Crc.CrcFrom(0xBD58, [0, 0, 0]) == 0x83F0
  {
    Crc.CrcOfThree(0xBD58, 0, 0, 0);
  }

  /** Everything of an example frame before its one byte of data. */
  function Header(): seq<Byte> {
    [21, 0, 0xB4] + [0x13, 1, 0] + [0, 0, 0] + [0, 1, 0] + [0, 0, 1] + [0, 0, 0]
  }

  lemma HeaderCrc()
    ensures Crc.CrcFrom(0, Header()) == 0x83F0
  {
    var h1 := [21, 0, 0xB4];
    var h2, h3, h4 := h1 + [0x13, 1, 0], h1 + [0x13, 1, 0] + [0, 0, 0], h1 + [0x13, 1, 0] + [0, 0, 0] + [0, 1, 0];
    Header1();
    Header2();
    Crc.CrcFromAppend(0, h1, [0x13, 1, 0]);
    Header3();
    Crc.CrcFromAppend(0, h2, [0, 0, 0]);
    Header4();
    Crc.CrcFromAppend(0, h3, [0, 1, 0]);
    Header5();
    Crc.CrcFromAppend(0, h4, [0, 0, 1]);
    Header6();
    Crc.CrcFromAppend(0, h4 + [0, 0, 1], [0, 0, 0]);
  }

  lemma LastByteCrc(b: Byte)
    requires 1 <= b <= 2
    ensures Hi(Crc.ByteStep(0x83F0, b)) != 0
  {}

  lemma OneAsLe32()
    ensures Le32(0) == [0, 0, 0, 0] && Le32(1) == [1, 0, 0, 0]
  {}

  lemma ExampleWords()
    ensures LengthField(21) == [21, 0] && Le(MSG_PROTOBUF_RESPONSE) == [0xB4, 0x13] && Le(1) == [1, 0]
  {}

  lemma ExampleBodyIs(b: Byte)
    ensures FrameBody(MSG_PROTOBUF_RESPONSE, FragPayload(1, [b])) == Header() + [b]
  {
    OneAsLe32();
    ExampleWords();
    assert FragPayload(1, [b]) == [1, 0] + [0, 0, 0, 0] + [1, 0, 0, 0] + [1, 0, 0, 0] + [b];
  }

  lemma ExampleSmall(b: Byte)
    requires 1 <= b <= 2
    ensures Small(ExampleFrame(b))
  {
    ExampleBodyIs(b);
    HeaderCrc();
    Crc.CrcFromAppend(0, Header(), [b]);
    Crc.CrcOfOne(0x83F0, b);
    LastByteCrc(b);
    BuiltShape(MSG_PROTOBUF_RESPONSE, FragPayload(1, [b]));
    ShortFrameNoFullBlock(BuildFrame(MSG_PROTOBUF_RESPONSE, FragPayload(1, [b])));
  }

  lemma CapabilitiesSmall()
    ensures Small(CAPABILITIES)
  {
    CapabilitiesCrc();
    BuiltShape(MSG_CONFIGURATION, []);
    ShortFrameNoFullBlock(BuildFrame(MSG_CONFIGURATION, []));
  }

  lemma CapabilitiesHead()
    ensures Crc.CrcFrom(0, [6, 0, 0xBA]) == 0xB261
  {
    Crc.CrcOfThree(0, 6, 0, 0xBA);
  }

  lemma CapabilitiesLast()
    ensures Crc.ByteStep(0xB261, 0x13) == 0x2532
  {}

  lemma CapabilitiesCrc()
    ensures SentCrc(MSG_CONFIGURATION, []) == 0x2532
  {
    assert LengthField(6) == [6, 0];
    assert FrameBody(MSG_CONFIGURATION, []) == [6, 0, 0xBA] + [0x13];
    CapabilitiesHead();
    CapabilitiesLast();
    Crc.CrcFromAppend(0, [6, 0, 0xBA], [0x13]);
    Crc.CrcOfOne(0xB261, 0x13);
  }

  lemma AckHead()
    ensures Crc.CrcFrom(0, [9, 0, 0x88]) == 0x64D0
  {
    Crc.CrcOfThree(0, 9, 0, 0x88);
  }

  lemma AckMiddle()
    ensures Crc.CrcFrom(0x64D0, [0x13, 0xBA, 0x13]) == 0x51E8
  {
    Crc.CrcOfThree(0x64D0, 0x13, 0xBA, 0x13);
  }

  lemma AckLast()
    ensures Crc.ByteStep(0x51E8, 0) == 0x4E51
  {}

  lemma AckCrc()
    ensures SentCrc(MSG_ACK, [0xBA, 0x13, 0]) == 0x4E51
  {
    assert LengthField(9) == [9, 0];
    assert FrameBody(MSG_ACK, [0xBA, 0x13, 0]) == [9, 0, 0x88] + [0x13, 0xBA, 0x13] + [0];
    AckHead();
    AckMiddle();
    AckLast();
    Crc.CrcFromAppend(0, [9, 0, 0x88], [0x13, 0xBA, 0x13]);
    Crc.CrcFromAppend(0, [9, 0, 0x88] + [0x13, 0xBA, 0x13], [0]);
    Crc.CrcOfOne(0x51E8, 0);
  }

  lemma AckSmall()
    ensures Small(CAPABILITIES_ACK)
  {
    AckCrc();
    BuiltShape(MSG_ACK, [0xBA, 0x13, 0]);
    ShortFrameNoFullBlock(BuildFrame(MSG_ACK, [0xBA, 0x13, 0]));
  }

  // ----- The link of the examples -----

  /** A link with 20 usable bytes a write, on which only write number `bad` fails. */
  function ExampleEnv(first: EnvelopeEvent, second: EnvelopeEvent, bad: nat): Env {
    EnvFor(pb => ExampleDecode(first, second, pb), [], [], 20, k => k != bad)
  }

  lemma OneByteFragment(b: Byte)
    ensures ParseFragHeader(FragPayload(1, [b])).Ok? && ParseFragHeader(FragPayload(1, [b])).value.1 == [b]
  {
    FragRoundTrip(1, [b]);
    assert [b][..1] == [b];
  }

  lemma ExampleEnvelope(env: Env, p: seq<Byte>, pb: seq<Byte>, e: EnvelopeEvent)
    requires ParseFragHeader(p).Ok? && ParseFragHeader(p).value.1 == pb && env.decode(pb) == Some(e)
    ensures EnvelopeOf(env, p) == Ok(e)
  {}

  lemma ExampleDecodes(env: Env, first: EnvelopeEvent, second: EnvelopeEvent, bad: nat, b: Byte)
    requires env == ExampleEnv(first, second, bad)
    ensures EnvelopeOf(env, ExampleFrame(b).payload) == Ok(if b == 1 then first else second)
  {
    OneByteFragment(b);
    ExampleEnvelope(env, FragPayload(1, [b]), [b], if b == 1 then first else second);
  }

  /** How many writes a frame takes. */
  function Writes(out: Out): nat { |ChunksFor(20, 0, out)| }

  lemma TakesWrites(out: Out)
    ensures Writes(out) > 0
  {
    var data := WrapCobs(FrameOf(out));
    ChunksCarryData(data, 0, 20);
    WrapNotEmpty(FrameOf(out));
    var chunks := ChunkWithHandle(data, 0, 20);
    if |chunks| == 0 {
      NothingCarried(chunks);
    }
  }

  lemma WrapNotEmpty(f: seq<Byte>)
    ensures WrapCobs(f) != []
  {
    assert WrapCobs(f)[0] == 0;
  }

  lemma NothingCarried(chunks: seq<seq<Byte>>)
    requires |chunks| == 0
    ensures Flatten(Bodies(chunks)) == []
  {}

  const RESPONSE_ACK: Out := Ack(MSG_PROTOBUF_RESPONSE, 0, [])

  lemma ExampleFailsSecond(env: Env, first: EnvelopeEvent, second: EnvelopeEvent)
    requires env == ExampleEnv(first, second, Writes(RESPONSE_ACK))
    ensures FailsSecond(env, Writes(RESPONSE_ACK))
  {
    TakesWrites(RESPONSE_ACK);
  }

  lemma ExampleFailsFirst(env: Env, first: EnvelopeEvent, second: EnvelopeEvent)
    requires env == ExampleEnv(first, second, 0)
    ensures FailsFirst(env)
  {
    TakesWrites(RESPONSE_ACK);
  }

  // ----- The sessions -----

  /** The frame arrives as sent, and carries this envelope. */
  predicate Carries(env: Env, f: GfdiFrame, e: EnvelopeEvent) {
    Small(f) && f.msgType == MSG_PROTOBUF_RESPONSE && EnvelopeOf(env, f.payload) == Ok(e) && e != WakeResult(1)
  }

  lemma ExampleCarries(env: Env, first: EnvelopeEvent, second: EnvelopeEvent, bad: nat)
    requires env == ExampleEnv(first, second, bad) && first != WakeResult(1) && second != WakeResult(1)
    ensures Carries(env, ExampleFrame(1), first) && Carries(env, ExampleFrame(2), second)
  {
    ExampleSmall(1);
    ExampleSmall(2);
    ExampleDecodes(env, first, second, bad, 1);
    ExampleDecodes(env, first, second, bad, 2);
  }

  lemma FirstDelivered(env: Env, f: GfdiFrame, now: nat)
    requires Small(f) && QueuesNothing(env, f)
    ensures Run(env, Deliver(f, now)) == AfterFrame(env, INITIAL, f, now) && Listening(Run(env, Deliver(f, now)))
  {
    assert [] + Deliver(f, now) == Deliver(f, now);
    Delivered(env, [], f, now);
  }

  /** The device waits, records and waits again; the acknowledgment of the second message fails. */
  lemma RepeatRun(env: Env, n: nat, waiting: GfdiFrame, recording: GfdiFrame, ops1: seq<Op>, ops2: seq<Op>,
                  ops: seq<Op>)
    requires FailsSecond(env, n)
    requires Carries(env, waiting, StateChange(Waiting)) && Carries(env, recording, StateChange(Recording))
    requires ops1 == Deliver(waiting, 0) && ops2 == ops1 + Deliver(recording, 0) && ops == ops2 + Deliver(waiting, 0)
    ensures Tally(Run(env, ops).log).states.reported == [Named(Waiting, false), Named(Waiting, false)]
  {
    FirstDelivered(env, waiting, 0);
    Delivered(env, ops1, recording, 0);
    Delivered(env, ops2, waiting, 0);
    WaitingTwice(env, n, waiting, recording, 0);
  }

  /** Waiting, recording, waiting: Ready is reported twice in a row, neither time queued. */
  lemma RepeatHappens(env: Env, ops: seq<Op>)
    requires env == ExampleEnv(StateChange(Waiting), StateChange(Recording), Writes(RESPONSE_ACK))
    requires ops == Deliver(ExampleFrame(1), 0) + Deliver(ExampleFrame(2), 0) + Deliver(ExampleFrame(1), 0)
    ensures Tally(Run(env, ops).log).states.reported == [Named(Waiting, false), Named(Waiting, false)]
  {
    var bad := Writes(RESPONSE_ACK);
    var ops1 := Deliver(ExampleFrame(1), 0);
    ExampleFailsSecond(env, StateChange(Waiting), StateChange(Recording));
    ExampleCarries(env, StateChange(Waiting), StateChange(Recording), bad);
    RepeatRun(env, bad, ExampleFrame(1), ExampleFrame(2), ops1, ops1 + Deliver(ExampleFrame(2), 0), ops);
  }

  lemma ShotRun(env: Env, f: GfdiFrame, shot: ShotData, ops1: seq<Op>, ops: seq<Op>)
    requires FailsFirst(env) && Carries(env, f, ShotResult(shot))
    requires ops1 == Deliver(f, 0) && ops == ops1 + Deliver(f, NANOS)
    ensures Tally(Run(env, ops).log).shots ==
      ShotBook([Arrival(shot.shotId, 0), Arrival(shot.shotId, NANOS)], [Lost, Written], [])
  {
    FirstDelivered(env, f, 0);
    Delivered(env, ops1, f, NANOS);
    ShotSentTwice(env, f, shot, 0, NANOS);
  }

  /** Shot 7, sent again after a second: no shot is reported, though the second message is acknowledged. */
  lemma ShotLossHappens(env: Env, ops: seq<Op>)
    requires env == ExampleEnv(ShotResult(EXAMPLE_SHOT), Unknown, 0)
    requires ops == Deliver(ExampleFrame(1), 0) + Deliver(ExampleFrame(1), NANOS)
    ensures Tally(Run(env, ops).log).shots == ShotBook([Arrival(7, 0), Arrival(7, NANOS)], [Lost, Written], [])
  {
    ExampleFailsFirst(env, ShotResult(EXAMPLE_SHOT), Unknown);
    ExampleCarries(env, ShotResult(EXAMPLE_SHOT), Unknown, 0);
    ShotRun(env, ExampleFrame(1), EXAMPLE_SHOT, Deliver(ExampleFrame(1), 0), ops);
  }

  // ----- The handshake with one request lost -----

  const CONFIGURATION_ACK: Out := Ack(MSG_CONFIGURATION, 0, [])

  /** A session whose capabilities have been answered, and that has asked for nothing yet. */
  predicate Awaiting(st: State, attempts: nat) {
    && Listening(st) && st.phase == WaitCapabilitiesAck && st.reqId == 1 && st.attempts == attempts
    && RequestsSent(st.log, Subscribe) == 0 == RequestsSent(st.log, Wake)
  }

  /** Only write number `bad` fails, no frame is empty, and the two requests have no data. */
  ghost predicate FailsAt(env: Env, bad: nat) {
    && (forall k: nat :: env.accepts(k) <==> k != bad)
    && (forall out :: env.chunksOf(0, out) != [])
    && env.subscribe == [] == env.wakeup
  }

  /** What is sent from `attempts` on goes out unless the bad write is its first. */
  lemma FailsAtGoes(env: Env, bad: nat, st: State, out: Out)
    requires FailsAt(env, bad) && st.handle == 0
    requires bad <= st.attempts || st.attempts + |env.chunksOf(0, out)| <= bad
    ensures Goes(env, st, out) <==> bad != st.attempts
  {
    if bad != st.attempts {
      GrantedUnless(env, bad, st.attempts, |env.chunksOf(0, out)|);
    }
  }

  /** The writes of the answer to device capabilities. */
  function AnswerWrites(env: Env): nat { |env.chunksOf(0, CONFIGURATION_ACK)| + |env.chunksOf(0, HostCapabilities)| }

  lemma CapabilitiesRun(env: Env, bad: nat, f: GfdiFrame, st: State)
    requires FailsAt(env, bad) && bad >= AnswerWrites(env)
    requires Small(f) && f.msgType == MSG_CONFIGURATION && st == Run(env, Deliver(f, 0))
    ensures Awaiting(st, AnswerWrites(env))
  {
    var mid := INITIAL.(attempts := |env.chunksOf(0, CONFIGURATION_ACK)|);
    FirstDelivered(env, f, 0);
    FailsAtGoes(env, bad, INITIAL, CONFIGURATION_ACK);
    FailsAtGoes(env, bad, mid, HostCapabilities);
    ConfigurationStep(env, INITIAL, f, 0);
    NothingSent();
  }

  lemma NothingSent()
    ensures RequestsSent(INITIAL.log, Subscribe) == 0 == RequestsSent(INITIAL.log, Wake)
  {}

  const SUBSCRIPTION: Out := Request(1, Subscribe, [])
  const WAKE: Out := Request(2, Wake, [])

  lemma AckStarts(st: State)
    requires st.phase == WaitCapabilitiesAck
    ensures StartsSubscription(st, [0xBA, 0x13, 0])
  {}

  /** The ACK arrives, and the subscription is tried. */
  lemma AckRun(env: Env, ops: seq<Op>, a: nat, ack: GfdiFrame, st: State, s: State)
    requires env.subscribe == [] && st == Run(env, ops) && s == Run(env, ops + Deliver(ack, 0)) && Awaiting(st, a)
    requires Small(ack) && ack.msgType == MSG_ACK && ack.payload == [0xBA, 0x13, 0]
    ensures Listening(s) && s.phase == Subscribing && s.reqId == 2
    ensures RequestsSent(s.log, Subscribe) == (if Goes(env, st, SUBSCRIPTION) then 1 else 0) &&
      RequestsSent(s.log, Wake) == 0
    ensures Goes(env, st, SUBSCRIPTION) ==> s.attempts == a + |env.chunksOf(0, SUBSCRIPTION)|
  {
    AckStarts(st);
    Delivered(env, ops, ack, 0);
    AckStep(env, st, ack, 0, Goes(env, st, SUBSCRIPTION));
  }

  /** The subscription is answered, and the wake request is tried. */
  lemma SubscribedRun(env: Env, ops: seq<Op>, f: GfdiFrame, st: State, s: State)
    requires env.wakeup == [] && st == Run(env, ops) && s == Run(env, ops + Deliver(f, 0))
    requires Listening(st) && st.phase == Subscribing && st.reqId == 2 && Carries(env, f, SubscribeResult(true))
    ensures Listening(s) && s.phase == WakingUp && RequestsSent(s.log, Subscribe) == RequestsSent(st.log, Subscribe)
    ensures RequestsSent(s.log, Wake) == RequestsSent(st.log, Wake) + (if Goes(env, st, WAKE) then 1 else 0)
  {
    Delivered(env, ops, f, 0);
    SubscribedStep(env, st, f, true, 0, Goes(env, st, WAKE));
  }

  /** The wake is answered. */
  lemma WokenRun(env: Env, ops: seq<Op>, f: GfdiFrame, st: State, s: State)
    requires st == Run(env, ops) && s == Run(env, ops + Deliver(f, 0))
    requires Listening(st) && st.phase == WakingUp && Carries(env, f, WakeResult(0))
    ensures s.phase == Active && RequestsSent(s.log, Subscribe) == RequestsSent(st.log, Subscribe)
    ensures RequestsSent(s.log, Wake) == RequestsSent(st.log, Wake)
  {
    Delivered(env, ops, f, 0);
    WokenStep(env, st, f, 0, 0);
  }

  // ----- The same on the example link -----

  /** The example link, its two events being the two answers. */
  function HandshakeEnv(bad: nat): Env { ExampleEnv(SubscribeResult(true), WakeResult(0), bad) }

  lemma {:induction false} SplitCount(data: seq<Byte>, handle: Byte, size: nat, n: nat)
    requires size > 0 && n * size < |data| <= (n + 1) * size
    ensures |SplitInto(data, handle, size)| == n + 1
    decreases n
  {
    if n > 0 {
      SplitCount(data[size..], handle, size, n - 1);
    }
    SplitStep(data, handle, size);
  }

  /** A frame of at most 14 bytes takes one write, one of 20 takes two. */
  lemma WritesOf(out: Out)
    ensures |FrameOf(out)| == 9 ==> Writes(out) == 1
    ensures |FrameOf(out)| == 20 ==> Writes(out) == 2
  {
    var f := FrameOf(out);
    var data := WrapCobs(f);
    Lossless.EncodeLength(f);
    if |f| == 9 {
      SplitCount(data, 0, 19, 0);
    } else if |f| == 20 {
      SplitCount(data, 0, 19, 1);
    }
  }

  lemma ExampleFailsAt(env: Env, bad: nat)
    requires env == HandshakeEnv(bad)
    ensures FailsAt(env, bad)
  {
    forall out ensures env.chunksOf(0, out) != [] {
      TakesWrites(out);
    }
  }

  lemma AckFrameLength()
    ensures |FrameOf(CONFIGURATION_ACK)| == 9
  {}

  lemma RequestFrameLength()
    ensures |FrameOf(SUBSCRIPTION)| == 20
  {}

  lemma HostFrameLength()
    ensures |FrameOf(HostCapabilities)| == 20
  {}

  lemma ExampleWrites(env: Env, bad: nat)
    requires env == HandshakeEnv(bad)
    ensures AnswerWrites(env) == 3 && |env.chunksOf(0, SUBSCRIPTION)| == 2
  {
    AckFrameLength();
    WritesOf(CONFIGURATION_ACK);
    HostFrameLength();
    WritesOf(HostCapabilities);
    RequestFrameLength();
    WritesOf(SUBSCRIPTION);
  }

  lemma ExampleCapabilities(bad: nat, ops: seq<Op>, st: State)
    requires bad >= 3 && ops == Deliver(CAPABILITIES, 0) && st == Run(HandshakeEnv(bad), ops)
    ensures Awaiting(st, 3)
  {
    var env := HandshakeEnv(bad);
    CapabilitiesSmall();
    ExampleFailsAt(env, bad);
    ExampleWrites(env, bad);
    CapabilitiesRun(env, bad, CAPABILITIES, st);
  }

  lemma ExampleAck(bad: nat, ops: seq<Op>, st: State, s: State)
    requires bad == 3 || bad == 5
    requires st == Run(HandshakeEnv(bad), ops) && s == Run(HandshakeEnv(bad), ops + Deliver(CAPABILITIES_ACK, 0))
    requires Awaiting(st, 3)
    ensures Listening(s) && s.phase == Subscribing && s.reqId == 2 && (bad == 5 ==> s.attempts == 5)
    ensures RequestsSent(s.log, Subscribe) == (if bad == 3 then 0 else 1) && RequestsSent(s.log, Wake) == 0
  {
    var env := HandshakeEnv(bad);
    AckSmall();
    ExampleFailsAt(env, bad);
    ExampleWrites(env, bad);
    FailsAtGoes(env, bad, st, SUBSCRIPTION);
    AckRun(env, ops, 3, CAPABILITIES_ACK, st, s);
  }

  lemma ExampleSubscribed(bad: nat, ops: seq<Op>, st: State, s: State)
    requires st == Run(HandshakeEnv(bad), ops) && s == Run(HandshakeEnv(bad), ops + Deliver(ExampleFrame(1), 0))
    requires Listening(st) && st.phase == Subscribing && st.reqId == 2
    ensures Listening(s) && s.phase == WakingUp && RequestsSent(s.log, Subscribe) == RequestsSent(st.log, Subscribe)
    ensures bad == st.attempts ==> RequestsSent(s.log, Wake) == RequestsSent(st.log, Wake)
  {
    var env := HandshakeEnv(bad);
    ExampleCarries(env, SubscribeResult(true), WakeResult(0), bad);
    SubscribedRun(env, ops, ExampleFrame(1), st, s);
    if bad == st.attempts {
      ExampleFailsAt(env, bad);
      FailsAtGoes(env, bad, st, WAKE);
    }
  }

  lemma ExampleWoken(bad: nat, ops: seq<Op>, st: State, s: State)
    requires st == Run(HandshakeEnv(bad), ops) && s == Run(HandshakeEnv(bad), ops + Deliver(ExampleFrame(2), 0))
    requires Listening(st) && st.phase == WakingUp
    ensures s.phase == Active && RequestsSent(s.log, Subscribe) == RequestsSent(st.log, Subscribe)
    ensures RequestsSent(s.log, Wake) == RequestsSent(st.log, Wake)
  {
    ExampleCarries(HandshakeEnv(bad), SubscribeResult(true), WakeResult(0), bad);
    WokenRun(HandshakeEnv(bad), ops, ExampleFrame(2), st, s);
  }

  /** Capabilities, the ACK of the host's, an answered subscription, an answered wake. */
  function HandshakeOps(): seq<Op> {
    Deliver(CAPABILITIES, 0) + Deliver(CAPABILITIES_ACK, 0) + Deliver(ExampleFrame(1), 0) + Deliver(ExampleFrame(2), 0)
  }

  /** Writes 0 to 2 answer the capabilities; if write 3 fails, the session is active with no subscription sent. */
  lemma UnsubscribedHappens(s: State)
    requires s == Run(HandshakeEnv(3), HandshakeOps())
    ensures s.phase == Active && RequestsSent(s.log, Subscribe) == 0
  {
    var ops0 := Deliver(CAPABILITIES, 0);
    var ops1 := ops0 + Deliver(CAPABILITIES_ACK, 0);
    var ops2 := ops1 + Deliver(ExampleFrame(1), 0);
    ExampleCapabilities(3, ops0, Run(HandshakeEnv(3), ops0));
    ExampleAck(3, ops0, Run(HandshakeEnv(3), ops0), Run(HandshakeEnv(3), ops1));
    ExampleSubscribed(3, ops1, Run(HandshakeEnv(3), ops1), Run(HandshakeEnv(3), ops2));
    ExampleWoken(3, ops2, Run(HandshakeEnv(3), ops2), s);
  }

  /** Writes 3 and 4 subscribe; if write 5 fails, it is active with no wake request sent. */
  lemma UnwokenHappens(s: State)
    requires s == Run(HandshakeEnv(5), HandshakeOps())
    ensures s.phase == Active && RequestsSent(s.log, Subscribe) == 1 && RequestsSent(s.log, Wake) == 0
  {
    var ops0 := Deliver(CAPABILITIES, 0);
    var ops1 := ops0 + Deliver(CAPABILITIES_ACK, 0);
    var ops2 := ops1 + Deliver(ExampleFrame(1), 0);
    ExampleCapabilities(5, ops0, Run(HandshakeEnv(5), ops0));
    ExampleAck(5, ops0, Run(HandshakeEnv(5), ops0), Run(HandshakeEnv(5), ops1));
    ExampleSubscribed(5, ops1, Run(HandshakeEnv(5), ops1), Run(HandshakeEnv(5), ops2));
    ExampleWoken(5, ops2, Run(HandshakeEnv(5), ops2), s);
  }
}
