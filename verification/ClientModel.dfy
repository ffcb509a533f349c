/**
  The client's session as functions of its state. Protobuf encoding and decoding, the clock and the link are
  parameters: `Env` says how an envelope decodes, which bytes the two requests are, which chunks a frame is written
  as, and which chunk writes succeed. What holds of sessions does not depend on the chunks; what is written does, and
  is about the environments `EnvFor` makes, whose chunks are the frame, wrapped and cut to the MTU.
 */
module ClientModel {
  import opened Wrappers
  import opened Bytes
  import opened Gfdi
  import opened Multilink
  import opened Shots
  import StreamBuffers

  datatype DeviceState = Standby | NoiseCheck | Waiting | Recording | Processing | Faulted

  /** A decoded shot: its id, and what else it carries, which the client passes on unread. */
  datatype ShotData = ShotData(shotId: nat, ball: Option<seq<Byte>>, club: Option<seq<Byte>>, rest: seq<Byte>)

  /** What an envelope decodes to. */
  datatype EnvelopeEvent =
    | SubscribeResult(success: bool)
    | WakeResult(status: int)
    | EnvironmentResult(success: bool)
    | StateChange(state: DeviceState)
    | ShotResult(shot: ShotData)
    | ErrorReport(detail: seq<Byte>)
    | LevelCheck
    | MonitorReply
    | Unknown

  /** What the client reports to its caller. */
  datatype Event =
    | Registered(handle: Byte)
    | HandshakeComplete
    | Ready
    | Shot(shot: ShotData)
    | StateChanged(state: DeviceState)
    | DeviceError(detail: seq<Byte>)
    | Subscribed(success: bool)
    | Woken(status: int)
    | EnvironmentSet(success: bool)

  datatype Phase =
    | Registering
    | WaitDeviceInfo
    | WaitCapabilities
    | WaitCapabilitiesAck
    | Subscribing
    | WakingUp
    | Active

  datatype RequestKind = Subscribe | Wake | Environment

  /** A frame the client sends. */
  datatype Out =
    | Ack(origType: Word, status: Byte, payload: seq<Byte>)
    | HostCapabilities
    | Request(reqId: nat, kind: RequestKind, pb: seq<Byte>)

  /** What happens in a session, in order. */
  datatype Entry =
    | Got(msgType: Word)
    | GotAckOf(origType: Word)
    | GotEnvelope(envelope: EnvelopeEvent, at: nat, phase: Phase, last: Option<DeviceState>)
    | Sent(out: Out)
    | Unsent(out: Out)
    | Done(msgType: Word)
    | Emitted(event: Event, queued: bool)

  datatype Env = Env(
    decode: seq<Byte> -> Option<EnvelopeEvent>,
    subscribe: seq<Byte>,
    wakeup: seq<Byte>,
    chunksOf: (Byte, Out) -> seq<seq<Byte>>,
    accepts: nat -> bool)

  /** The client's fields, the chunks written to the link so far, and the session's log. */
  datatype State = State(
    handle: Byte,
    phase: Phase,
    buf: seq<Byte>,
    reqId: nat,
    recent: seq<Arrival>,
    lastState: Option<DeviceState>,
    pending: Option<Event>,
    attempts: nat,
    written: seq<seq<Byte>>,
    log: seq<Entry>)
  {
    function Note(e: Entry): State { this.(log := log + [e]) }
  }

  const INITIAL: State := State(0, Registering, [], 1, [], None, None, 0, [], [])

  type Outcome = Result<Option<Event>, Error>

  // ----- Sending -----

  const DEVICE_INFO_MIN: nat := 12

  const HOST_INFO: seq<Byte> :=
    [150, 0, 0xFF, 0xFF, 0xFF, 0xFF, 0xFF, 0xFF, 100, 0, 0xFF, 0xFF]
    + [10, 100, 105, 118, 111, 116, 109, 97, 107, 101, 114]
    + [5, 76, 105, 110, 117, 120]
    + [7, 68, 101, 115, 107, 116, 111, 112]
    + [1]

  /** The size of the capability bitmap, then the bitmap with bit 30 set. */
  const HOST_CAPABILITIES: seq<Byte> := [13, 0, 0, 0, 0x40, 0, 0, 0, 0, 0, 0, 0, 0, 0]

  function FrameOf(out: Out): seq<Byte> {
    match out
    case Ack(t, status, payload) => BuildAck(t, status, payload)
    case HostCapabilities => BuildFrame(MSG_CONFIGURATION, HOST_CAPABILITIES)
    case Request(id, _, pb) => BuildProtobufRequest((id % 0x1_0000) as Word, pb)
  }

  /** How many of the next `n` chunk writes succeed before one fails. */
  function Granted(accepts: nat -> bool, first: nat, n: nat): (g: nat)
    ensures g <= n
    decreases n
  {
    if n == 0 || !accepts(first) then 0 else 1 + Granted(accepts, first + 1, n - 1)
  }

  /** The chunks of one frame; the client never uses more than 20 bytes a write. */
  function ChunksFor(mtu: nat, handle: Byte, out: Out): seq<seq<Byte>> {
    ChunkWithHandle(WrapCobs(FrameOf(out)), handle, if mtu < 20 then mtu else 20)
  }

  /** A session on a link with this MTU. */
  function EnvFor(decode: seq<Byte> -> Option<EnvelopeEvent>, subscribe: seq<Byte>, wakeup: seq<Byte>, mtu: nat,
                  accepts: nat -> bool): Env {
    Env(decode, subscribe, wakeup, (handle, out) => ChunksFor(mtu, handle, out), accepts)
  }

  /** Frames are written wrapped and cut to `mtu`. */
  ghost predicate Cuts(env: Env, mtu: nat) {
    forall handle, out :: env.chunksOf(handle, out) == ChunksFor(mtu, handle, out)
  }

  function ChunksOf(env: Env, st: State, out: Out): seq<seq<Byte>> { env.chunksOf(st.handle, out) }

  /** Write the chunks of one frame; the first failed write ends the attempt. */
  function Transmit(env: Env, st: State, out: Out, chunks: seq<seq<Byte>>): (State, bool) {
    var g := Granted(env.accepts, st.attempts, |chunks|);
    if g == |chunks| then
      (st.(attempts := st.attempts + g, written := st.written + chunks).Note(Sent(out)), true)
    else
      (st.(attempts := st.attempts + g + 1, written := st.written + chunks[..g]).Note(Unsent(out)), false)
  }

  function SendFrame(env: Env, st: State, out: Out): (State, bool) {
    Transmit(env, st, out, ChunksOf(env, st, out))
  }

  function SendAck(env: Env, st: State, t: Word, payload: seq<Byte>): (State, bool) {
    SendFrame(env, st, Ack(t, 0, payload))
  }

  function NextReqId(st: State): State { st.(reqId := (st.reqId + 1) % 0x1_0000) }

  function SendRequest(env: Env, st: State, kind: RequestKind, pb: seq<Byte>): (State, bool) {
    SendFrame(env, NextReqId(st), Request(st.reqId, kind, pb))
  }

  function SendEnvironment(env: Env, st: State, pb: seq<Byte>): (State, Result<(), Error>) {
    var (s, ok) := SendRequest(env, st, Environment, pb);
    (s, if ok then Ok(()) else Err(Transport))
  }

  // ----- Handling frames -----

  function HandleDeviceInfo(env: Env, st: State, payload: seq<Byte>): (State, Outcome) {
    if |payload| < DEVICE_INFO_MIN then (st, Err(FrameTooShort))
    else
      var (s, ok) := SendAck(env, st, MSG_DEVICE_INFO, HOST_INFO);
      if ok then (s.(phase := WaitCapabilities), Ok(None)) else (s, Err(Transport))
  }

  function HandleConfiguration(env: Env, st: State): (State, Outcome) {
    var (s, ok) := SendAck(env, st, MSG_CONFIGURATION, []);
    if !ok then (s, Err(Transport))
    else
      var (t, ok') := SendFrame(env, s, HostCapabilities);
      if ok' then (t.(phase := WaitCapabilitiesAck), Ok(None)) else (t, Err(Transport))
  }

  function HandleAck(env: Env, st: State, payload: seq<Byte>): (State, Outcome) {
    if |payload| < 3 then (st, Ok(None))
    else
      var orig, status := FromLe(payload[0], payload[1]), payload[2];
      if status != 0 then (st, Err(Nak(orig, status)))
      else
        var s := st.Note(GotAckOf(orig));
        if orig == MSG_CONFIGURATION && s.phase == WaitCapabilitiesAck then
          var (t, ok) := SendRequest(env, s.(phase := Subscribing), Subscribe, env.subscribe);
          (t, if ok then Ok(Some(HandshakeComplete)) else Err(Transport))
        else (s, Ok(None))
  }

  function OnSubscribeResult(env: Env, st: State, success: bool): (State, Outcome) {
    if st.phase == Subscribing then
      var (s, ok) := SendRequest(env, st.(phase := WakingUp), Wake, env.wakeup);
      (s, if ok then Ok(Some(Subscribed(success))) else Err(Transport))
    else (st, Ok(Some(Subscribed(success))))
  }

  function OnWakeResult(st: State, status: int): (State, Outcome) {
    var s := if st.phase == WakingUp then st.(phase := Active) else st;
    var t := if status == 1 then s.(lastState := Some(Waiting), pending := Some(Ready)) else s;
    (t, Ok(Some(Woken(status))))
  }

  function OnStateChange(env: Env, st: State, state: DeviceState): (State, Outcome) {
    var s := st.(lastState := Some(state));
    if st.lastState == Some(state) then (s, Ok(None))
    else if state == Waiting then (s, Ok(Some(Ready)))
    else if state == Standby && s.phase == Active then
      var (t, ok) := SendRequest(env, s, Wake, env.wakeup);
      (t, if ok then Ok(Some(StateChanged(state))) else Err(Transport))
    else (s, Ok(Some(StateChanged(state))))
  }

  function OnShot(st: State, shot: ShotData, now: nat): (State, Outcome) {
    var (recent, isNew) := Offer(st.recent, Arrival(shot.shotId, now));
    (st.(recent := recent), Ok(if isNew then Some(Shot(shot)) else None))
  }

  function OnEnvelope(env: Env, st: State, e: EnvelopeEvent, now: nat): (State, Outcome) {
    match e
    case SubscribeResult(success) => OnSubscribeResult(env, st, success)
    case WakeResult(status) => OnWakeResult(st, status)
    case EnvironmentResult(success) => (st, Ok(Some(EnvironmentSet(success))))
    case StateChange(state) => OnStateChange(env, st, state)
    case ShotResult(shot) => OnShot(st, shot, now)
    case ErrorReport(detail) => (st, Ok(Some(DeviceError(detail))))
    case LevelCheck => (st, Ok(None))
    case MonitorReply => (st, Ok(None))
    case Unknown => (st, Ok(None))
  }

  /** The envelope a protobuf message carries, if it decodes. */
  function EnvelopeOf(env: Env, payload: seq<Byte>): Result<EnvelopeEvent, Error> {
    match ParseFragHeader(payload)
    case Err(e) => Err(e)
    case Ok(header) =>
      match env.decode(header.1)
      case None => Err(Protobuf)
      case Some(e) => Ok(e)
  }

  function HandleProtobuf(env: Env, st: State, payload: seq<Byte>, now: nat): (State, Outcome) {
    match EnvelopeOf(env, payload)
    case Err(e) => (st, Err(e))
    case Ok(e) => OnEnvelope(env, st.Note(GotEnvelope(e, now, st.phase, st.lastState)), e, now)
  }

  /** A protobuf message is acknowledged once it has been handled, and only if that succeeded. */
  function ProtobufMessage(env: Env, st: State, t: Word, payload: seq<Byte>, now: nat): (State, Outcome) {
    var (s, r) := HandleProtobuf(env, st, payload, now);
    if r.Err? then (s, r)
    else
      var (s', ok) := SendAck(env, s, t, []);
      (s', if ok then r else Err(Transport))
  }

  function FitMessage(env: Env, st: State, t: Word): (State, Outcome) {
    var (s, ok) := SendAck(env, st, t, [0]);
    (s, if ok then Ok(None) else Err(Transport))
  }

  function Dispatch(env: Env, st: State, f: GfdiFrame, now: nat): (State, Outcome) {
    if f.msgType == MSG_DEVICE_INFO then HandleDeviceInfo(env, st, f.payload)
    else if f.msgType == MSG_CONFIGURATION then HandleConfiguration(env, st)
    else if f.msgType == MSG_ACK then HandleAck(env, st, f.payload)
    else if f.msgType == MSG_FIT_DEFINITION || f.msgType == MSG_FIT_DATA then FitMessage(env, st, f.msgType)
    else if f.msgType == MSG_PROTOBUF_REQUEST || f.msgType == MSG_PROTOBUF_RESPONSE then
      ProtobufMessage(env, st, f.msgType, f.payload, now)
    else (st, Ok(None))
  }

  // ----- Polling -----

  /** One read of the link: a chunk (possibly of no bytes), nothing yet, or a failure. */
  datatype Read = Chunk(data: seq<Byte>) | WouldBlock | Failed

  function Feed(st: State, chunk: seq<Byte>): (State, bool) {
    match StripHandle(chunk, st.handle)
    case None => (st, true)
    case Some(data) =>
      if |st.buf| + |data| > StreamBuffers.STREAM_BUFFER_MAX then (st.(buf := []), false)
      else (st.(buf := st.buf + data), true)
  }

  function HandleRegisterResponse(st: State, chunk: seq<Byte>): (State, Outcome) {
    match ParseRegisterResponse(chunk)
    case Some((Success, handle)) => (st.(handle := handle, phase := WaitDeviceInfo), Ok(Some(Registered(handle))))
    case Some((status, _)) => (st, Err(MultiLinkRegister(status.Code())))
    case None =>
      var (s, ok) := Feed(st, chunk);
      (s, if ok then Ok(None) else Err(FrameTooShort))
  }

  function HandleFrame(env: Env, st: State, f: GfdiFrame, now: nat): (State, Outcome) {
    var (s, r) := Dispatch(env, st.Note(Got(f.msgType)), f, now);
    (if r.Ok? then s.Note(Done(f.msgType)) else s, r)
  }

  function NextFrame(env: Env, st: State, now: nat): (State, Outcome) {
    var (cobs, rest) := StreamBuffers.NextOf(st.buf);
    var s := st.(buf := rest);
    match cobs
    case None => (s, Ok(None))
    case Some(bytes) =>
      match ParseCobsFrame(bytes)
      case Err(e) => (s, Err(e))
      case Ok(f) => HandleFrame(env, s, f, now)
  }

  function ReadAndHandle(env: Env, st: State, rd: Read, now: nat): (State, Outcome) {
    match rd
    case Failed => (st, Err(Transport))
    case WouldBlock => NextFrame(env, st, now)
    case Chunk(data) =>
      if data == [] then NextFrame(env, st, now)
      else if st.phase == Registering then HandleRegisterResponse(st, data)
      else
        var (s, ok) := Feed(st, data);
        if ok then NextFrame(env, s, now) else (s, Err(FrameTooShort))
  }

  function Report(s: State, r: Outcome): (State, Outcome) {
    (if r.Ok? && r.value.Some? then s.Note(Emitted(r.value.value, false)) else s, r)
  }

  function Poll(env: Env, st: State, rd: Read, now: nat): (State, Outcome) {
    match st.pending
    case Some(e) => (st.(pending := None).Note(Emitted(e, true)), Ok(Some(e)))
    case None =>
      var (s, r) := ReadAndHandle(env, st, rd, now);
      Report(s, r)
  }

  function StartSession(st: State, ok: bool): (State, Result<(), Error>) {
    if ok then (st.(phase := Registering), Ok(())) else (st, Err(Transport))
  }

  // ----- Sessions -----

  /** What a caller can do with the client. */
  datatype Op = Start(ok: bool) | DoPoll(rd: Read, now: nat) | SetEnvironment(pb: seq<Byte>)

  function Apply(env: Env, st: State, op: Op): State {
    match op
    case Start(ok) => StartSession(st, ok).0
    case DoPoll(rd, now) => Poll(env, st, rd, now).0
    case SetEnvironment(pb) => SendEnvironment(env, st, pb).0
  }

  function Run(env: Env, ops: seq<Op>): State {
    if ops == [] then INITIAL else Apply(env, Run(env, ops[..|ops| - 1]), ops[|ops| - 1])
  }

  /** Every write succeeds. */
  ghost predicate AllAccepted(env: Env) { forall k: nat :: env.accepts(k) }

  /** No frame failed to be written in full. */
  predicate NoneUnsent(log: seq<Entry>) { forall i :: 0 <= i < |log| ==> !log[i].Unsent? }

  lemma {:induction false} GrantedAll(env: Env, first: nat, n: nat)
    requires AllAccepted(env)
    ensures Granted(env.accepts, first, n) == n
    decreases n
  {
    if n > 0 {
      GrantedAll(env, first + 1, n - 1);
    }
  }

  /** The chunk writes of one frame all succeed. */
  predicate Goes(env: Env, st: State, out: Out) {
    Granted(env.accepts, st.attempts, |ChunksOf(env, st, out)|) == |ChunksOf(env, st, out)|
  }

  function Tried(out: Out, ok: bool): Entry { if ok then Sent(out) else Unsent(out) }

  /** A send changes nothing of the session but the link and the log. */
  lemma SendIs(env: Env, st: State, out: Out)
    ensures var (s, ok) := SendFrame(env, st, out);
      && ok == Goes(env, st, out) && (AllAccepted(env) ==> ok)
      && s == st.(attempts := s.attempts, written := s.written, log := st.log + [Tried(out, ok)])
      && (ok ==>
            s.written == st.written + ChunksOf(env, st, out) && s.attempts == st.attempts + |ChunksOf(env, st, out)|)
      && (!ok ==> s.attempts > st.attempts)
      && var g := Granted(env.accepts, st.attempts, |ChunksOf(env, st, out)|);
         s.written == st.written + ChunksOf(env, st, out)[..g] && (ok <==> g == |ChunksOf(env, st, out)|)
  {
    assert ChunksOf(env, st, out)[..|ChunksOf(env, st, out)|] == ChunksOf(env, st, out);
    if AllAccepted(env) {
      GrantedAll(env, st.attempts, |ChunksOf(env, st, out)|);
    }
  }

  /** Nor does a request, but for the id it uses up. */
  lemma RequestIs(env: Env, st: State, kind: RequestKind, pb: seq<Byte>)
    ensures var (s, ok) := SendRequest(env, st, kind, pb); var out := Request(st.reqId, kind, pb);
      && ok == Goes(env, st, out) && (AllAccepted(env) ==> ok)
      && s == st.(reqId := (st.reqId + 1) % 0x1_0000, attempts := s.attempts, written := s.written,
                  log := st.log + [Tried(out, ok)])
      && (ok ==> s.attempts == st.attempts + |ChunksOf(env, st, out)|)
  {
    SendIs(env, NextReqId(st), Request(st.reqId, kind, pb));
  }

  lemma RunPush(env: Env, ops: seq<Op>, op: Op)
    ensures Run(env, ops + [op]) == Apply(env, Run(env, ops), op)
  {
    assert (ops + [op])[..|ops|] == ops;
  }

  // ----- What the handlers come to -----

  /** `s` is `st` after a request of this kind was tried. */
  predicate Asked(st: State, s: State, kind: RequestKind, pb: seq<Byte>, ok: bool) {
    s == st.(reqId := (st.reqId + 1) % 0x1_0000, attempts := s.attempts, written := s.written,
             log := st.log + [Tried(Request(st.reqId, kind, pb), ok)])
  }

  lemma SubscribeResultIs(env: Env, st: State, success: bool) returns (ok: bool)
    requires st.phase == Subscribing
    ensures var (s, r) := OnSubscribeResult(env, st, success); var out := Request(st.reqId, Wake, env.wakeup);
      && ok == Goes(env, st, out) && (AllAccepted(env) ==> ok) && Asked(st.(phase := WakingUp), s, Wake, env.wakeup, ok)
      && r == if ok then Ok(Some(Subscribed(success))) else Err(Transport)
  {
    RequestIs(env, st.(phase := WakingUp), Wake, env.wakeup);
    ok := SendRequest(env, st.(phase := WakingUp), Wake, env.wakeup).1;
  }

  lemma WakeResultIs(st: State, status: int)
    ensures var (s, r) := OnWakeResult(st, status);
      && r == Ok(Some(Woken(status)))
      && (if status == 1 then s == st.(phase := s.phase, lastState := Some(Waiting), pending := Some(Ready))
          else s == st.(phase := s.phase))
  {}

  /** A change to standby while active asks for another wake; every other change is reported at once. */
  predicate AsksWake(st: State, state: DeviceState) {
    state == Standby && st.phase == Active
  }

  function StateReport(state: DeviceState): Event { if state == Waiting then Ready else StateChanged(state) }

  lemma StandbyIs(env: Env, st: State, state: DeviceState) returns (ok: bool)
    requires st.lastState != Some(state) && AsksWake(st, state)
    ensures var (s, r) := OnStateChange(env, st, state);
      && ok == Goes(env, st, Request(st.reqId, Wake, env.wakeup)) && (AllAccepted(env) ==> ok)
      && Asked(st.(lastState := Some(state)), s, Wake, env.wakeup, ok)
      && (ok ==> s.attempts == st.attempts + |ChunksOf(env, st, Request(st.reqId, Wake, env.wakeup))|)
      && r == if ok then Ok(Some(StateReport(state))) else Err(Transport)
  {
    RequestIs(env, st.(lastState := Some(state)), Wake, env.wakeup);
    ok := SendRequest(env, st.(lastState := Some(state)), Wake, env.wakeup).1;
  }

  lemma StateChangeIs(env: Env, st: State, state: DeviceState)
    requires st.lastState == Some(state) || !AsksWake(st, state)
    ensures OnStateChange(env, st, state) ==
      (st.(lastState := Some(state)), Ok(if st.lastState == Some(state) then None else Some(StateReport(state))))
  {}

  /** An ACK with status zero is noted; the one the handshake waits for also starts the subscription. */
  predicate StartsSubscription(st: State, payload: seq<Byte>) {
    |payload| >= 3 && payload[2] == 0 && FromLe(payload[0], payload[1]) == MSG_CONFIGURATION &&
      st.phase == WaitCapabilitiesAck
  }

  lemma HandshakeDoneIs(env: Env, st: State, payload: seq<Byte>) returns (ok: bool)
    requires StartsSubscription(st, payload)
    ensures var (s, r) := HandleAck(env, st, payload); var out := Request(st.reqId, Subscribe, env.subscribe);
      && ok == Goes(env, st, out) && (AllAccepted(env) ==> ok)
      && (ok ==> s.attempts == st.attempts + |ChunksOf(env, st, out)|)
      && Asked(st.Note(GotAckOf(MSG_CONFIGURATION)).(phase := Subscribing), s, Subscribe, env.subscribe, ok)
      && r == if ok then Ok(Some(HandshakeComplete)) else Err(Transport)
  {
    var s0 := st.Note(GotAckOf(MSG_CONFIGURATION)).(phase := Subscribing);
    RequestIs(env, s0, Subscribe, env.subscribe);
    ok := SendRequest(env, s0, Subscribe, env.subscribe).1;
  }

  lemma AckFrameIs(env: Env, st: State, payload: seq<Byte>)
    requires !StartsSubscription(st, payload)
    ensures var (s, r) := HandleAck(env, st, payload);
      && s == (if |payload| >= 3 && payload[2] == 0 then st.Note(GotAckOf(FromLe(payload[0], payload[1]))) else st)
      && (r.Ok? ==> r.value == None)
  {}

  /** The answer to device capabilities: an acknowledgment, then the host's own, and a new phase if both went out. */
  lemma ConfigurationIs(env: Env, st: State) returns (acked: bool, answered: bool)
    ensures var (s, r) := HandleConfiguration(env, st);
      && (AllAccepted(env) ==> acked && answered) && (answered ==> acked)
      && s == st.(phase := if answered then WaitCapabilitiesAck else st.phase, attempts := s.attempts,
                  written := s.written, log := st.log + AnswerLog(acked, answered))
      && r == if answered then Ok(None) else Err(Transport)
  {
    var (s, ok) := SendAck(env, st, MSG_CONFIGURATION, []);
    SendIs(env, st, Ack(MSG_CONFIGURATION, 0, []));
    acked, answered := ok, false;
    if acked {
      var (t, ok') := SendFrame(env, s, HostCapabilities);
      SendIs(env, s, HostCapabilities);
      answered := ok';
      assert t.log == st.log + AnswerLog(acked, answered);
    }
  }

  function AnswerLog(acked: bool, answered: bool): seq<Entry> {
    [Tried(Ack(MSG_CONFIGURATION, 0, []), acked)] + (if acked then [Tried(HostCapabilities, answered)] else [])
  }
}
