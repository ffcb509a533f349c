/**
  Handshake safety over whole sessions, whichever writes fail: an active session has, since the device capabilities
  it last answered, been through every step of the handshake in order, whatever restarted it before. Its requests
  were tried exactly once each, and it is known exactly when one of them was not sent.
 */
module Handshake {
  import opened Wrappers
  import opened Bytes
  import opened Gfdi
  import opened ClientModel
  import StreamBuffers

  // ----- The steps of the handshake -----

  /** The two requests count whether they could be written or not. */
  datatype Mark =
    | AckSent
    | HostSent
    | Acked
    | SubscribeTried(sent: bool)
    | SubscribeAnswered
    | WakeTried(sent: bool)
    | WakeAnswered

  function MarkOf(e: Entry): Option<Mark> {
    match e
    case Sent(Ack(t, status, _)) => if t == MSG_CONFIGURATION && status == 0 then Some(AckSent) else None
    case Sent(HostCapabilities) => Some(HostSent)
    case Sent(Request(_, kind, _)) => RequestMark(kind, true)
    case Unsent(Request(_, kind, _)) => RequestMark(kind, false)
    case GotAckOf(t) => if t == MSG_CONFIGURATION then Some(Acked) else None
    case GotEnvelope(SubscribeResult(_), _, _, _) => Some(SubscribeAnswered)
    case GotEnvelope(WakeResult(_), _, _, _) => Some(WakeAnswered)
    case _ => None
  }

  function RequestMark(kind: RequestKind, sent: bool): Option<Mark> {
    match kind
    case Subscribe => Some(SubscribeTried(sent))
    case Wake => Some(WakeTried(sent))
    case Environment => None
  }

  /** Device capabilities arrive, and are answered. */
  const RECEIVED: Entry := Got(MSG_CONFIGURATION)
  const ANSWERED: Entry := Sent(HostCapabilities)

  /** The steps since the last entry `from`; nothing if there was none. */
  function StepsSince(log: seq<Entry>, from: Entry): Option<seq<Mark>> {
    if log == [] then None
    else
      var e := log[|log| - 1];
      if e == from then Some([])
      else
        match StepsSince(log[..|log| - 1], from)
        case None => None
        case Some(steps) => Some(Marked(steps, e))
  }

  function Marked(steps: seq<Mark>, e: Entry): seq<Mark> {
    if MarkOf(e).Some? then steps + [MarkOf(e).value] else steps
  }

  lemma StepsPush(log: seq<Entry>, e: Entry, from: Entry)
    ensures StepsSince(log + [e], from) ==
      if e == from then Some([])
      else if StepsSince(log, from) == None then None
      else Some(Marked(StepsSince(log, from).value, e))
  {
    assert (log + [e])[..|log|] == log;
  }

  /** The requests among the steps. */
  predicate IsAsk(m: Mark) { m.SubscribeTried? || m.WakeTried? }

  function Asks(steps: seq<Mark>): seq<Mark> {
    if steps == [] then []
    else
      var m := steps[|steps| - 1];
      Asks(steps[..|steps| - 1]) + (if IsAsk(m) then [m] else [])
  }

  lemma AsksPush(steps: seq<Mark>, m: Mark)
    ensures Asks(steps + [m]) == Asks(steps) + (if IsAsk(m) then [m] else [])
  {
    assert (steps + [m])[..|steps|] == steps;
  }

  /** `p` occurs in `s`, in order, not necessarily without gaps. */
  predicate Embeds(p: seq<Mark>, s: seq<Mark>) {
    if p == [] then true
    else if s == [] then false
    else if p[|p| - 1] == s[|s| - 1] then Embeds(p[..|p| - 1], s[..|s| - 1])
    else Embeds(p, s[..|s| - 1])
  }

  lemma {:induction false} EmbedsMore(p: seq<Mark>, s: seq<Mark>, m: Mark)
    requires Embeds(p, s)
    ensures Embeds(p, s + [m])
    decreases |s|, |p|
  {
    assert (s + [m])[..|s|] == s;
    if p != [] && p[|p| - 1] == m {
      EmbedsInit(p, s);
    }
  }

  /** Dropping the last step of a pattern leaves it embedded. */
  lemma {:induction false} EmbedsInit(p: seq<Mark>, s: seq<Mark>)
    requires p != [] && Embeds(p, s)
    ensures Embeds(p[..|p| - 1], s)
    decreases |s|, 0
  {
    var q, t, m := p[..|p| - 1], s[..|s| - 1], s[|s| - 1];
    assert t + [m] == s;
    if q != [] {
      if p[|p| - 1] == m {
        EmbedsMore(q, t, m);
      } else {
        EmbedsInit(p, t);
        EmbedsMore(q, t, m);
      }
    }
  }

  lemma EmbedsNext(p: seq<Mark>, s: seq<Mark>, m: Mark)
    requires Embeds(p, s)
    ensures Embeds(p + [m], s + [m])
  {
    assert (p + [m])[..|p|] == p && (s + [m])[..|s|] == s;
  }

  // ----- How far the handshake must be -----

  predicate OnlyWakes(asks: seq<Mark>) {
    asks != [] ==> asks[|asks| - 1].WakeTried? && OnlyWakes(asks[..|asks| - 1])
  }

  /**
    The requests tried by `phase`: one for the subscription, then one to wake; an active session may add more of
    these.
   */
  predicate AskedBy(phase: Phase, asks: seq<Mark>) {
    match phase
    case WaitCapabilitiesAck => asks == []
    case Subscribing => |asks| == 1 && asks[0].SubscribeTried?
    case WakingUp => |asks| == 2 && asks[0].SubscribeTried? && asks[1].WakeTried?
    case Active => |asks| >= 2 && asks[0].SubscribeTried? && asks[1].WakeTried? && OnlyWakes(asks[2..])
    case _ => true
  }

  /** The steps that must have happened for the session to be in `phase`, the requests being the first ones tried. */
  function PathTo(phase: Phase, asks: seq<Mark>): seq<Mark>
    requires AskedBy(phase, asks)
  {
    match phase
    case Subscribing => [Acked, asks[0]]
    case WakingUp => [Acked, asks[0], SubscribeAnswered, asks[1]]
    case Active => [Acked, asks[0], SubscribeAnswered, asks[1], WakeAnswered]
    case _ => []
  }

  predicate NeedsAnswer(phase: Phase) {
    phase == WaitCapabilitiesAck || phase == Subscribing || phase == WakingUp || phase == Active
  }

  /** These steps since the last answer allow `phase`. */
  predicate Reached(phase: Phase, steps: seq<Mark>) {
    AskedBy(phase, Asks(steps)) && Embeds(PathTo(phase, Asks(steps)), steps)
  }

  predicate Secured(phase: Phase, log: seq<Entry>) {
    NeedsAnswer(phase) ==> StepsSince(log, ANSWERED).Some? && Reached(phase, StepsSince(log, ANSWERED).value)
  }

  /** No write failed since the device capabilities last received. */
  predicate AllSentSince(log: seq<Entry>) {
    log != [] ==>
      var e := log[|log| - 1];
      e == RECEIVED || (!e.Unsent? && AllSentSince(log[..|log| - 1]))
  }

  /** If so, these were answered at once, and the steps since are the answer and the steps since then. */
  predicate AnsweredAtOnce(log: seq<Entry>) {
    var since, after := StepsSince(log, RECEIVED), StepsSince(log, ANSWERED);
    && (since.Some? && AllSentSince(log) ==> after.Some? && since.value == [AckSent, HostSent] + after.value)
    && (after.Some? ==> since.Some?)
  }

  predicate Safe(phase: Phase, log: seq<Entry>) { Secured(phase, log) && AnsweredAtOnce(log) }

  // ----- One more entry -----

  lemma LinkedStays(log: seq<Entry>, e: Entry)
    requires AnsweredAtOnce(log) && e != RECEIVED && e != ANSWERED
    ensures AnsweredAtOnce(log + [e])
  {
    assert (log + [e])[..|log|] == log;
    StepsPush(log, e, RECEIVED);
    StepsPush(log, e, ANSWERED);
  }

  /** A step that is no request leaves what has been reached. */
  lemma ReachedStays(phase: Phase, steps: seq<Mark>, m: Mark)
    requires Reached(phase, steps) && !IsAsk(m)
    ensures Reached(phase, steps + [m])
  {
    AsksPush(steps, m);
    assert Asks(steps) + [] == Asks(steps);
    EmbedsMore(PathTo(phase, Asks(steps)), steps, m);
  }

  lemma SafeStays(phase: Phase, log: seq<Entry>, e: Entry)
    requires Safe(phase, log) && e != RECEIVED && e != ANSWERED && (MarkOf(e).Some? ==> !IsAsk(MarkOf(e).value))
    ensures Safe(phase, log + [e])
  {
    LinkedStays(log, e);
    StepsPush(log, e, ANSWERED);
    if NeedsAnswer(phase) && MarkOf(e).Some? {
      ReachedStays(phase, StepsSince(log, ANSWERED).value, MarkOf(e).value);
    }
  }

  /** The awaited ACK and the subscription it triggers. */
  lemma ReachedSubscribing(steps: seq<Mark>, sent: bool, steps': seq<Mark>)
    requires Reached(WaitCapabilitiesAck, steps) && steps' == steps + [Acked] + [SubscribeTried(sent)]
    ensures Reached(Subscribing, steps')
  {
    AsksPush(steps, Acked);
    AsksPush(steps + [Acked], SubscribeTried(sent));
    EmbedsNext([], steps, Acked);
    EmbedsNext([Acked], steps + [Acked], SubscribeTried(sent));
    assert [] + [Acked] == [Acked] && [Acked] + [SubscribeTried(sent)] == [Acked, SubscribeTried(sent)];
  }

  /** The answered subscription and the wake request it triggers. */
  lemma ReachedWakingUp(steps: seq<Mark>, sent: bool, steps': seq<Mark>)
    requires Reached(Subscribing, steps) && steps' == steps + [SubscribeAnswered] + [WakeTried(sent)]
    ensures Reached(WakingUp, steps')
  {
    var a := Asks(steps)[0];
    AsksPush(steps, SubscribeAnswered);
    AsksPush(steps + [SubscribeAnswered], WakeTried(sent));
    assert Asks(steps') == [a, WakeTried(sent)];
    EmbedsNext([Acked, a], steps, SubscribeAnswered);
    EmbedsNext([Acked, a] + [SubscribeAnswered], steps + [SubscribeAnswered], WakeTried(sent));
    assert [Acked, a] + [SubscribeAnswered] + [WakeTried(sent)] == [Acked, a, SubscribeAnswered, WakeTried(sent)];
  }

  lemma ReachedActive(steps: seq<Mark>)
    requires Reached(WakingUp, steps)
    ensures Reached(Active, steps + [WakeAnswered])
  {
    var asks := Asks(steps);
    AsksPush(steps, WakeAnswered);
    assert asks + [] == asks && asks[2..] == [];
    EmbedsNext(PathTo(WakingUp, asks), steps, WakeAnswered);
    assert PathTo(WakingUp, asks) + [WakeAnswered] == PathTo(Active, asks);
  }

  /** Another wake request, for standby. */
  lemma ReachedStandby(steps: seq<Mark>, sent: bool)
    requires Reached(Active, steps)
    ensures Reached(Active, steps + [WakeTried(sent)])
  {
    var asks := Asks(steps);
    AsksPush(steps, WakeTried(sent));
    assert (asks + [WakeTried(sent)])[2..] == asks[2..] + [WakeTried(sent)];
    assert (asks[2..] + [WakeTried(sent)])[..|asks[2..]|] == asks[2..];
    EmbedsMore(PathTo(Active, asks), steps, WakeTried(sent));
  }

  // ----- Every handler keeps it -----

  lemma AckMark(t: Word, payload: seq<Byte>, ok: bool)
    ensures var m := MarkOf(Tried(Ack(t, 0, payload), ok)); m.Some? ==> !IsAsk(m.value)
  {}

  lemma AckedSafe(env: Env, st: State, t: Word, payload: seq<Byte>)
    requires Safe(st.phase, st.log)
    ensures var s := SendAck(env, st, t, payload).0; s.phase == st.phase && Safe(s.phase, s.log)
  {
    var ok := SendAck(env, st, t, payload).1;
    SendIs(env, st, Ack(t, 0, payload));
    AckMark(t, payload, ok);
    SafeStays(st.phase, st.log, Tried(Ack(t, 0, payload), ok));
  }

  lemma ConfigurationSafe(env: Env, st: State)
    requires Safe(st.phase, st.log)
    ensures var s := HandleConfiguration(env, st.Note(RECEIVED)).0; Safe(s.phase, s.log)
  {
    var s0 := st.Note(RECEIVED);
    var acked, answered := ConfigurationIs(env, s0);
    AnswerSafe(st.phase, st.log, HandleConfiguration(env, s0).0.log, acked, answered);
  }

  lemma AnswerSafe(phase: Phase, log: seq<Entry>, log': seq<Entry>, acked: bool, answered: bool)
    requires Safe(phase, log) && log' == log + [RECEIVED] + AnswerLog(acked, answered) && (answered ==> acked)
    ensures Safe(if answered then WaitCapabilitiesAck else phase, log')
  {
    var ack := Tried(Ack(MSG_CONFIGURATION, 0, []), acked);
    if answered {
      AnsweredSafe(log, log', ack);
    } else if acked {
      var host := Unsent(HostCapabilities);
      assert log' == log + [RECEIVED] + [ack] + [host];
      UnansweredSafe(phase, log, log + [RECEIVED] + [ack], host, log');
    } else {
      assert log' == log + [RECEIVED] + [ack];
      UnansweredSafe(phase, log, log + [RECEIVED], ack, log');
    }
  }

  lemma AnsweredSafe(log: seq<Entry>, log': seq<Entry>, ack: Entry)
    requires ack == Sent(Ack(MSG_CONFIGURATION, 0, [])) && log' == log + [RECEIVED] + [ack, ANSWERED]
    ensures Safe(WaitCapabilitiesAck, log')
  {
    var l0, l1 := log + [RECEIVED], log + [RECEIVED] + [ack];
    assert log' == l1 + [ANSWERED];
    StepsPush(log, RECEIVED, RECEIVED);
    StepsPush(l0, ack, RECEIVED);
    StepsPush(l1, ANSWERED, RECEIVED);
    StepsPush(l1, ANSWERED, ANSWERED);
    assert [] + [AckSent] == [AckSent] && [AckSent] + [HostSent] == [AckSent, HostSent] == [AckSent, HostSent] + [];
  }

  /** Capabilities that could not be answered leave the handshake where it was, and are not the ones to measure from. */
  lemma UnansweredSafe(phase: Phase, log: seq<Entry>, mid: seq<Entry>, e: Entry, log': seq<Entry>)
    requires Safe(phase, log) && log' == mid + [e] && e.Unsent? && MarkOf(e) == None
    requires mid == log + [RECEIVED] || mid == log + [RECEIVED] + [Sent(Ack(MSG_CONFIGURATION, 0, []))]
    ensures Safe(phase, log')
  {
    var l0, ack := log + [RECEIVED], Sent(Ack(MSG_CONFIGURATION, 0, []));
    SecuredStays(phase, log, RECEIVED);
    StepsPush(log, RECEIVED, RECEIVED);
    if mid != l0 {
      SecuredStays(phase, l0, ack);
      StepsPush(l0, ack, RECEIVED);
    }
    SecuredStays(phase, mid, e);
    StepsPush(mid, e, RECEIVED);
    assert log'[..|mid|] == mid;
  }

  lemma SecuredStays(phase: Phase, log: seq<Entry>, e: Entry)
    requires Secured(phase, log) && e != ANSWERED && (MarkOf(e).Some? ==> !IsAsk(MarkOf(e).value))
    ensures Secured(phase, log + [e])
  {
    StepsPush(log, e, ANSWERED);
    if NeedsAnswer(phase) && MarkOf(e).Some? {
      ReachedStays(phase, StepsSince(log, ANSWERED).value, MarkOf(e).value);
    }
  }

  /** An entry and the request it triggers. */
  lemma TwoSteps(log: seq<Entry>, e: Entry, id: nat, kind: RequestKind, pb: seq<Byte>, ok: bool, log': seq<Entry>)
    requires AnsweredAtOnce(log) && e != RECEIVED && e != ANSWERED && MarkOf(e).Some? && RequestMark(kind, ok).Some?
    requires log' == log + [e] + [Tried(Request(id, kind, pb), ok)]
    ensures AnsweredAtOnce(log')
    ensures StepsSince(log, ANSWERED).Some? ==>
      StepsSince(log', ANSWERED) ==
      Some(StepsSince(log, ANSWERED).value + [MarkOf(e).value] + [RequestMark(kind, ok).value])
  {
    var f := Tried(Request(id, kind, pb), ok);
    assert MarkOf(f) == RequestMark(kind, ok);
    LinkedStays(log, e);
    LinkedStays(log + [e], f);
    StepsPush(log, e, ANSWERED);
    StepsPush(log + [e], f, ANSWERED);
  }

  lemma AckFrameSafe(env: Env, st: State, payload: seq<Byte>)
    requires Safe(st.phase, st.log)
    ensures var s := HandleAck(env, st, payload).0; Safe(s.phase, s.log)
  {
    if StartsSubscription(st, payload) {
      var ok := HandshakeDoneIs(env, st, payload);
      SubscribingSafe(env, st, HandleAck(env, st, payload).0, ok);
    } else {
      AckFrameIs(env, st, payload);
      if |payload| >= 3 && payload[2] == 0 {
        SafeStays(st.phase, st.log, GotAckOf(FromLe(payload[0], payload[1])));
      }
    }
  }

  lemma SubscribingSafe(env: Env, st: State, s: State, ok: bool)
    requires Safe(WaitCapabilitiesAck, st.log)
    requires Asked(st.Note(GotAckOf(MSG_CONFIGURATION)).(phase := Subscribing), s, Subscribe, env.subscribe, ok)
    ensures Safe(s.phase, s.log)
  {
    TwoSteps(st.log, GotAckOf(MSG_CONFIGURATION), st.reqId, Subscribe, env.subscribe, ok, s.log);
    ReachedSubscribing(StepsSince(st.log, ANSWERED).value, ok, StepsSince(s.log, ANSWERED).value);
  }

  lemma WakingUpSafe(env: Env, st: State, log: seq<Entry>, entry: Entry, s: State, ok: bool)
    requires Safe(Subscribing, log) && st.log == log + [entry] && MarkOf(entry) == Some(SubscribeAnswered)
    requires Asked(st.(phase := WakingUp), s, Wake, env.wakeup, ok)
    ensures Safe(s.phase, s.log)
  {
    TwoSteps(log, entry, st.reqId, Wake, env.wakeup, ok, s.log);
    ReachedWakingUp(StepsSince(log, ANSWERED).value, ok, StepsSince(s.log, ANSWERED).value);
  }

  lemma SubscribeResultSafe(env: Env, st: State, log: seq<Entry>, entry: Entry, success: bool)
    requires Safe(st.phase, log) && st.log == log + [entry]
    requires entry.GotEnvelope? && entry.envelope == SubscribeResult(success)
    ensures var s := OnSubscribeResult(env, st, success).0; Safe(s.phase, s.log)
  {
    if st.phase == Subscribing {
      var ok := SubscribeResultIs(env, st, success);
      WakingUpSafe(env, st, log, entry, OnSubscribeResult(env, st, success).0, ok);
    } else {
      SafeStays(st.phase, log, entry);
    }
  }

  lemma WakeResultSafe(st: State, log: seq<Entry>, entry: Entry, status: int)
    requires Safe(st.phase, log) && st.log == log + [entry]
    requires entry.GotEnvelope? && entry.envelope == WakeResult(status)
    ensures var s := OnWakeResult(st, status).0; Safe(s.phase, s.log)
  {
    SafeStays(st.phase, log, entry);
    if st.phase == WakingUp {
      StepsPush(log, entry, ANSWERED);
      ReachedActive(StepsSince(log, ANSWERED).value);
    }
  }

  lemma StandbySafe(env: Env, st: State, s: State, state: DeviceState, ok: bool)
    requires Safe(Active, st.log) && st.phase == Active
    requires Asked(st.(lastState := Some(state)), s, Wake, env.wakeup, ok)
    ensures Safe(s.phase, s.log)
  {
    var e := Tried(Request(st.reqId, Wake, env.wakeup), ok);
    assert MarkOf(e) == Some(WakeTried(ok));
    LinkedStays(st.log, e);
    StepsPush(st.log, e, ANSWERED);
    ReachedStandby(StepsSince(st.log, ANSWERED).value, ok);
  }

  lemma StateChangeSafe(env: Env, st: State, state: DeviceState)
    requires Safe(st.phase, st.log)
    ensures var s := OnStateChange(env, st, state).0; Safe(s.phase, s.log)
  {
    if st.lastState != Some(state) && AsksWake(st, state) {
      var ok := StandbyIs(env, st, state);
      StandbySafe(env, st, OnStateChange(env, st, state).0, state, ok);
    } else {
      StateChangeIs(env, st, state);
    }
  }

  lemma EnvelopeSafe(env: Env, st: State, e: EnvelopeEvent, now: nat)
    requires Safe(st.phase, st.log)
    ensures var s := OnEnvelope(env, st.Note(GotEnvelope(e, now, st.phase, st.lastState)), e, now).0;
      Safe(s.phase, s.log)
  {
    var entry := GotEnvelope(e, now, st.phase, st.lastState);
    var s0 := st.Note(entry);
    SafeStays(st.phase, st.log, entry);
    match e {
      case SubscribeResult(success) => SubscribeResultSafe(env, s0, st.log, entry, success);
      case WakeResult(status) => WakeResultSafe(s0, st.log, entry, status);
      case StateChange(state) => StateChangeSafe(env, s0, state);
      case _ =>
    }
  }

  lemma HandleProtobufSafe(env: Env, st: State, payload: seq<Byte>, now: nat)
    requires Safe(st.phase, st.log)
    ensures var s := HandleProtobuf(env, st, payload, now).0; Safe(s.phase, s.log)
  {
    var r := EnvelopeOf(env, payload);
    if r.Ok? {
      EnvelopeSafe(env, st, r.value, now);
    }
  }

  lemma ProtobufSafe(env: Env, st: State, t: Word, payload: seq<Byte>, now: nat)
    requires Safe(st.phase, st.log)
    ensures var s := ProtobufMessage(env, st, t, payload, now).0; Safe(s.phase, s.log)
  {
    HandleProtobufSafe(env, st, payload, now);
    AckedSafe(env, HandleProtobuf(env, st, payload, now).0, t, []);
  }

  lemma DispatchSafe(env: Env, st: State, f: GfdiFrame, now: nat)
    requires Safe(st.phase, st.log)
    ensures var s := Dispatch(env, st.Note(Got(f.msgType)), f, now).0; Safe(s.phase, s.log)
  {
    var s0 := st.Note(Got(f.msgType));
    if f.msgType == MSG_CONFIGURATION {
      ConfigurationSafe(env, st);
    } else {
      SafeStays(st.phase, st.log, Got(f.msgType));
      if f.msgType == MSG_DEVICE_INFO {
        AckedSafe(env, s0, MSG_DEVICE_INFO, HOST_INFO);
      } else if f.msgType == MSG_ACK {
        AckFrameSafe(env, s0, f.payload);
      } else if f.msgType == MSG_FIT_DEFINITION || f.msgType == MSG_FIT_DATA {
        AckedSafe(env, s0, f.msgType, [0]);
      } else if f.msgType == MSG_PROTOBUF_REQUEST || f.msgType == MSG_PROTOBUF_RESPONSE {
        ProtobufSafe(env, s0, f.msgType, f.payload, now);
      }
    }
  }

  lemma NextFrameSafe(env: Env, st: State, now: nat)
    requires Safe(st.phase, st.log)
    ensures var s := NextFrame(env, st, now).0; Safe(s.phase, s.log)
  {
    var (cobs, rest) := StreamBuffers.NextOf(st.buf);
    var s := st.(buf := rest);
    if cobs.Some? && ParseCobsFrame(cobs.value).Ok? {
      var f := ParseCobsFrame(cobs.value).value;
      DispatchSafe(env, s, f, now);
      var t := Dispatch(env, s.Note(Got(f.msgType)), f, now).0;
      SafeStays(t.phase, t.log, Done(f.msgType));
    }
  }

  lemma ReadSafe(env: Env, st: State, rd: Read, now: nat)
    requires Safe(st.phase, st.log)
    ensures var s := ReadAndHandle(env, st, rd, now).0; Safe(s.phase, s.log)
  {
    match rd {
      case Failed =>
      case WouldBlock => NextFrameSafe(env, st, now);
      case Chunk(data) =>
        if data == [] {
          NextFrameSafe(env, st, now);
        } else if st.phase == Registering {
          RegisterSafe(st, data);
        } else {
          NextFrameSafe(env, Feed(st, data).0, now);
        }
    }
  }

  lemma RegisterSafe(st: State, data: seq<Byte>)
    requires Safe(st.phase, st.log)
    ensures var s := HandleRegisterResponse(st, data).0; Safe(s.phase, s.log)
  {}

  lemma PollSafe(env: Env, st: State, rd: Read, now: nat)
    requires Safe(st.phase, st.log)
    ensures var s := Poll(env, st, rd, now).0; Safe(s.phase, s.log)
  {
    if st.pending.Some? {
      SafeStays(st.phase, st.log, Emitted(st.pending.value, true));
    } else {
      var (s, r) := ReadAndHandle(env, st, rd, now);
      ReadSafe(env, st, rd, now);
      if r.Ok? && r.value.Some? {
        SafeStays(s.phase, s.log, Emitted(r.value.value, false));
      }
    }
  }

  lemma EnvironmentSafe(env: Env, st: State, pb: seq<Byte>)
    requires Safe(st.phase, st.log)
    ensures var s := SendEnvironment(env, st, pb).0; Safe(s.phase, s.log)
  {
    var ok := SendRequest(env, st, Environment, pb).1;
    RequestIs(env, st, Environment, pb);
    SafeStays(st.phase, st.log, Tried(Request(st.reqId, Environment, pb), ok));
  }

  /** The steps every phase has behind it, in every session. */
  lemma {:induction false} RunSecured(env: Env, ops: seq<Op>)
    ensures Safe(Run(env, ops).phase, Run(env, ops).log)
  {
    if ops == [] {
      StartSafe(Run(env, ops));
    } else {
      var st := Run(env, ops[..|ops| - 1]);
      RunSecured(env, ops[..|ops| - 1]);
      match ops[|ops| - 1] {
        case Start(_) =>
        case DoPoll(rd, now) => PollSafe(env, st, rd, now);
        case SetEnvironment(pb) => EnvironmentSafe(env, st, pb);
      }
    }
  }

  lemma StartSafe(st: State)
    requires st == INITIAL
    ensures Safe(st.phase, st.log)
  {}

  // ----- What being active means -----

  /**
    Since the device capabilities it last answered, the session got its ACK, tried to subscribe, was answered, tried to
    wake the device and was answered, in that order; it tried to subscribe once, and every other request was a wake.
   */
  predicate ThroughHandshake(log: seq<Entry>) {
    var since := StepsSince(log, ANSWERED);
    && since.Some?
    && var asks := Asks(since.value);
    && |asks| >= 2 && asks[0].SubscribeTried? && asks[1].WakeTried? && OnlyWakes(asks[2..])
    && Embeds([Acked, asks[0], SubscribeAnswered, asks[1], WakeAnswered], since.value)
  }

  /** Handshake safety, whichever writes fail. */
  lemma ActiveMeansAsked(env: Env, ops: seq<Op>)
    requires Run(env, ops).phase == Active
    ensures ThroughHandshake(Run(env, ops).log)
  {
    RunSecured(env, ops);
  }

  lemma {:induction false} OnlyWakesHas(asks: seq<Mark>, sent: bool)
    requires OnlyWakes(asks)
    ensures SubscribeTried(sent) !in asks
  {
    if asks != [] {
      OnlyWakesHas(asks[..|asks| - 1], sent);
    }
  }

  lemma {:induction false} AskIsStep(steps: seq<Mark>, m: Mark)
    requires IsAsk(m)
    ensures m in Asks(steps) <==> m in steps
  {
    if steps != [] {
      AskIsStep(steps[..|steps| - 1], m);
      assert steps == steps[..|steps| - 1] + [steps[|steps| - 1]];
    }
  }

  /** Whether the first wake request among the steps was sent, if there is one. */
  function FirstWake(steps: seq<Mark>): Option<bool> {
    if steps == [] then None
    else
      var m, before := steps[|steps| - 1], FirstWake(steps[..|steps| - 1]);
      if before == None && m.WakeTried? then Some(m.sent) else before
  }

  lemma FirstWakePush(steps: seq<Mark>, m: Mark)
    ensures FirstWake(steps + [m]) ==
      if FirstWake(steps) == None && m.WakeTried? then Some(m.sent) else FirstWake(steps)
  {
    assert (steps + [m])[..|steps|] == steps;
  }

  lemma {:induction false} FirstWakeOfAsks(steps: seq<Mark>)
    ensures FirstWake(steps) == FirstWake(Asks(steps))
  {
    if steps != [] {
      var before, m := steps[..|steps| - 1], steps[|steps| - 1];
      FirstWakeOfAsks(before);
      FirstWakePush(Asks(before), m);
      assert Asks(before) + [] == Asks(before);
    }
  }

  lemma {:induction false} FirstWakeStays(steps: seq<Mark>, more: seq<Mark>)
    requires FirstWake(steps).Some?
    ensures FirstWake(steps + more) == FirstWake(steps)
  {
    if more == [] {
      assert steps + more == steps;
    } else {
      var n := |more| - 1;
      FirstWakeStays(steps, more[..n]);
      FirstWakePush(steps + more[..n], more[n]);
      assert steps + more == steps + more[..n] + [more[n]];
    }
  }

  lemma AsksOfActive(asks: seq<Mark>)
    requires AskedBy(Active, asks)
    ensures SubscribeTried(true) in asks <==> asks[0].sent
    ensures SubscribeTried(false) in asks <==> !asks[0].sent
    ensures FirstWake(asks) == Some(asks[1].sent)
  {
    OnlyWakesHas(asks[2..], true);
    OnlyWakesHas(asks[2..], false);
    assert asks == [asks[0]] + [asks[1]] + asks[2..];
    FirstWakePush([], asks[0]);
    FirstWakePush([asks[0]], asks[1]);
    assert [] + [asks[0]] == [asks[0]];
    FirstWakeStays([asks[0]] + [asks[1]], asks[2..]);
  }

  /** The steps of the handshake, its two requests sent or not. */
  function Handshaken(subscribed: bool, woken: bool): seq<Mark> {
    [Acked, SubscribeTried(subscribed), SubscribeAnswered, WakeTried(woken), WakeAnswered]
  }

  /**
    Exactly what an active session has been through since the device capabilities it last answered: it tried to
    subscribe once, and did so exactly if that was not Unsent; and the wake request of the handshake is the first one
    tried, sent exactly if that was not Unsent.
   */
  lemma HandshakeExactly(env: Env, ops: seq<Op>) returns (subscribed: bool, woken: bool)
    requires Run(env, ops).phase == Active
    ensures var since := StepsSince(Run(env, ops).log, ANSWERED);
      && since.Some?
      && Embeds(Handshaken(subscribed, woken), since.value)
      && (SubscribeTried(true) in since.value <==> subscribed)
      && (SubscribeTried(false) in since.value <==> !subscribed)
      && FirstWake(since.value) == Some(woken)
  {
    RunSecured(env, ops);
    var steps := StepsSince(Run(env, ops).log, ANSWERED).value;
    subscribed, woken := Asks(steps)[0].sent, Asks(steps)[1].sent;
    AsksOfActive(Asks(steps));
    AskIsStep(steps, SubscribeTried(true));
    AskIsStep(steps, SubscribeTried(false));
    FirstWakeOfAsks(steps);
  }

  // ----- When nothing fails -----

  predicate NoRequestUnsent(steps: seq<Mark>) { SubscribeTried(false) !in steps && WakeTried(false) !in steps }

  lemma {:induction false} AllSentSteps(log: seq<Entry>)
    requires AllSentSince(log) && StepsSince(log, RECEIVED).Some?
    ensures NoRequestUnsent(StepsSince(log, RECEIVED).value)
  {
    if log[|log| - 1] != RECEIVED {
      AllSentSteps(log[..|log| - 1]);
    }
  }

  lemma {:induction false} EmbedsHas(p: seq<Mark>, s: seq<Mark>, m: Mark)
    requires Embeds(p, s) && m in p
    ensures m in s
    decreases |s|
  {
    var last := s[|s| - 1];
    if p[|p| - 1] == last {
      if m != last {
        assert p == p[..|p| - 1] + [last];
        EmbedsHas(p[..|p| - 1], s[..|s| - 1], m);
      }
    } else {
      EmbedsHas(p, s[..|s| - 1], m);
    }
  }

  /** What precedes the steps precedes the pattern. */
  lemma {:induction false} EmbedsBehind(front: seq<Mark>, p: seq<Mark>, s: seq<Mark>)
    requires Embeds(p, s)
    ensures Embeds(front + p, front + s)
    decreases |s|
  {
    if s == [] {
      assert front + p == front == front + s;
      EmbedsSelf(front);
    } else {
      var s', m := s[..|s| - 1], s[|s| - 1];
      assert front + s == front + s' + [m];
      if p != [] && p[|p| - 1] == m {
        EmbedsBehind(front, p[..|p| - 1], s');
        EmbedsNext(front + p[..|p| - 1], front + s', m);
        assert front + p == front + p[..|p| - 1] + [m];
      } else {
        EmbedsBehind(front, p, s');
        EmbedsMore(front + p, front + s', m);
      }
    }
  }

  lemma {:induction false} EmbedsSelf(s: seq<Mark>)
    ensures Embeds(s, s)
  {
    if s != [] {
      EmbedsSelf(s[..|s| - 1]);
    }
  }

  /**
    If no write failed since the last device capabilities arrived, the session has since acknowledged them, sent its
    own, got its ACK, subscribed, been answered, sent a wake request and been answered, in that order.
   */
  lemma ActiveMeansHandshaken(env: Env, ops: seq<Op>)
    requires Run(env, ops).phase == Active && AllSentSince(Run(env, ops).log)
    ensures var since := StepsSince(Run(env, ops).log, RECEIVED);
      since.Some? && NoRequestUnsent(since.value) && Embeds([AckSent, HostSent] + Handshaken(true, true), since.value)
  {
    var log := Run(env, ops).log;
    RunSecured(env, ops);
    var subscribed, woken := HandshakeExactly(env, ops);
    AllSentSteps(log);
    var steps := StepsSince(log, ANSWERED).value;
    EmbedsBehind([AckSent, HostSent], Handshaken(subscribed, woken), steps);
    AllRequestsSent(steps, StepsSince(log, RECEIVED).value, subscribed, woken);
  }

  lemma AllRequestsSent(steps: seq<Mark>, all: seq<Mark>, subscribed: bool, woken: bool)
    requires all == [AckSent, HostSent] + steps && NoRequestUnsent(all) && Embeds(Handshaken(subscribed, woken), steps)
    ensures subscribed && woken
  {
    EmbedsHas(Handshaken(subscribed, woken), steps, Handshaken(subscribed, woken)[1]);
    EmbedsHas(Handshaken(subscribed, woken), steps, Handshaken(subscribed, woken)[3]);
  }
}
