/**
  The books of every session, whichever writes fail: they balance after every operation. Each lemma here says what one
  handler does to them; `Sessions` says what balanced books mean.
 */
module Accounting {
  import opened Wrappers
  import opened Bytes
  import opened Gfdi
  import opened Multilink
  import opened Shots
  import opened ClientModel
  import opened Ledger
  import StreamBuffers

  /** At most one shot arrived between `a` and `b`, at `now`. */
  predicate OneLater(a: seq<Arrival>, b: seq<Arrival>, now: nat) {
    b == a || (b != [] && b[..|b| - 1] == a && b[|b| - 1].at == now)
  }

  /** What handling an envelope leaves alone. */
  predicate LeavesAlone(b: Books, st: State, b': Books, s: State, now: nat) {
    && b'.acks == b.acks && b'.owed == b.owed && b'.got == b.got
    && s.buf == st.buf && s.handle == st.handle
    && OneLater(b.shots.arrivals, b'.shots.arrivals, now)
  }

  /**
    An envelope has been handled: the books are in order, and `r` reports what they will owe once it is acknowledged.
   */
  ghost predicate Handled(env: Env, b: Books, st: State, s: State, r: Outcome, now: nat) {
    var b' := Tally(s.log);
    && InOrder(env, b', s) && LeavesAlone(b, st, b', s, now)
    && (if r.Ok? then Promised(b', s.pending, r) else Decided(b'))
  }

  lemma QuietHandled(env: Env, b: Books, st: State, s: State, r: Outcome, now: nat)
    requires InOrder(env, Tally(s.log), s) && Decided(Tally(s.log)) && Quiet(r) &&
      LeavesAlone(b, st, Tally(s.log), s, now)
    ensures Handled(env, b, st, s, r, now)
  {
    QuietPromised(env, Tally(s.log), s, r);
  }

  // ----- Requests -----

  function AskedBooks(b: Books, id: nat, kind: RequestKind, ok: bool): Books {
    if ok then Asking(b, id, kind) else Fail(Asking(b, id, kind))
  }

  lemma AskedTally(st: State, s: State, kind: RequestKind, pb: seq<Byte>, ok: bool)
    requires Asked(st, s, kind, pb, ok)
    ensures Tally(s.log) == AskedBooks(Tally(st.log), st.reqId, kind, ok)
  {
    TallyPush(st.log, Tried(Request(st.reqId, kind, pb), ok));
  }

  /** The fields of the state that the books look at, but for the request id. */
  predicate SameView(st: State, s: State) {
    s.recent == st.recent && s.lastState == st.lastState && s.pending == st.pending
  }

  /** The books before a request: a wake request has become due. */
  function BeforeAsking(b: Books, kind: RequestKind): Books {
    if kind == Wake then b.(counts := OweWake(b.counts)) else b
  }

  /** A request leaves the books in order, written or not; a wake request pays for the one owed. */
  lemma RequestInOrder(env: Env, b: Books, st: State, s: State, kind: RequestKind, ok: bool, b': Books)
    requires InOrder(env, b, st) && SameView(st, s) && s.reqId == (st.reqId + 1) % 0x1_0000 && (AllAccepted(env) ==> ok)
    requires b' == AskedBooks(BeforeAsking(b, kind), st.reqId, kind, ok)
    ensures InOrder(env, b', s) && (Decided(b) || !ok ==> Decided(b'))
  {
    AskCounts(env, b.counts, st.reqId, kind);
    if !ok {
      FailInOrder(env, Asking(BeforeAsking(b, kind), st.reqId, kind), s);
    }
  }

  // ----- Envelopes -----

  /** `st` is the state an envelope is handled in, and `b` the books before it arrived. */
  ghost predicate Prepared(env: Env, b: Books, st: State) {
    InOrder(env, b, st) && Decided(b) && st.pending == None
  }

  lemma SubscribedBooks(env: Env, st: State, b: Books, st': State, s: State, r: Outcome, ok: bool, now: nat)
    requires Prepared(env, b, st) && Tally(st.log) == BeforeAsking(b, Wake) && st' == st.(phase := WakingUp)
    requires Asked(st', s, Wake, env.wakeup, ok) && (AllAccepted(env) ==> ok) && Quiet(r)
    ensures Handled(env, b, st, s, r, now)
  {
    AskedTally(st', s, Wake, env.wakeup, ok);
    RequestInOrder(env, b, st', s, Wake, ok, Tally(s.log));
    QuietHandled(env, b, st, s, r, now);
  }

  lemma SubscribeResultBooks(env: Env, st: State, b: Books, success: bool, s: State, r: Outcome, now: nat)
    requires Prepared(env, b, st) && Tally(st.log) == if st.phase == Subscribing then BeforeAsking(b, Wake) else b
    requires (s, r) == OnSubscribeResult(env, st, success)
    ensures Handled(env, b, st, s, r, now)
  {
    if st.phase == Subscribing {
      var ok := SubscribeResultIs(env, st, success);
      SubscribedBooks(env, st, b, st.(phase := WakingUp), s, r, ok, now);
    } else {
      SubscribeElsewhere(env, st, success);
      UnchangedHandled(env, st, b, s, r, now);
    }
  }

  lemma SubscribeElsewhere(env: Env, st: State, success: bool)
    requires st.phase != Subscribing
    ensures OnSubscribeResult(env, st, success) == (st, Ok(Some(Subscribed(success))))
  {}

  function AddChange(b: Books, n: Named): Books { b.(states := TakeChange(b.states, n)) }

  /** The state after a change has been taken up. */
  function Changed(st: State, n: Named): State {
    st.(lastState := Some(n.state), pending := if n.queued then Some(Ready) else None)
  }

  lemma ChangeInOrder(env: Env, b: Books, st: State, s: State, n: Named)
    requires Prepared(env, b, st) && (st.lastState == Some(n.state) ==> n.queued) && (n.queued ==> n.state == Waiting)
    requires s.reqId == st.reqId && SameView(Changed(st, n), s)
    ensures InOrder(env, AddChange(b, n), s)
  {
    TakeChangeOk(b.states, st.lastState, n);
  }

  lemma ChangePromised(env: Env, b: Books, st: State, n: Named, b': Books, r: Outcome)
    requires Prepared(env, b, st) && (n.queued ==> n.state == Waiting)
    requires b' == AddChange(b, n).(counts := b'.counts)
    requires NamedIn(r) == (if n.queued then [] else [n]) && ShotsIn(r) == []
    ensures Promised(b', if n.queued then Some(Ready) else None, r)
  {
    TakeChangeDue(b.states, st.lastState, n);
    ShotsIdle(b.shots, st.recent);
  }

  lemma QueuedHandled(env: Env, st: State, b: Books, s: State, r: Outcome, now: nat)
    requires Prepared(env, b, st) && Tally(st.log) == AddChange(b, Named(Waiting, true)) && Quiet(r) && r.Ok?
    requires s == st.(phase := s.phase, lastState := Some(Waiting), pending := Some(Ready))
    ensures Handled(env, b, st, s, r, now)
  {
    ChangeInOrder(env, b, st, s, Named(Waiting, true));
    ChangePromised(env, b, st, Named(Waiting, true), Tally(s.log), r);
  }

  lemma WakeResultBooks(env: Env, st: State, b: Books, status: int, s: State, r: Outcome, now: nat)
    requires Prepared(env, b, st) && Tally(st.log) == if status == 1 then AddChange(b, Named(Waiting, true)) else b
    requires (s, r) == OnWakeResult(st, status)
    ensures Handled(env, b, st, s, r, now)
  {
    WakeResultIs(st, status);
    if status == 1 {
      QueuedHandled(env, st, b, s, r, now);
    } else {
      UnchangedHandled(env, st, b, s, r, now);
    }
  }

  lemma UnchangedHandled(env: Env, st: State, b: Books, s: State, r: Outcome, now: nat)
    requires Prepared(env, b, st) && Tally(st.log) == b && s == st.(phase := s.phase) && Quiet(r)
    ensures Handled(env, b, st, s, r, now)
  {
    QuietHandled(env, b, st, s, r, now);
  }

  lemma ReportNames(state: DeviceState)
    ensures NamedIn(Ok(Some(StateReport(state)))) == [Named(state, false)] &&
      ShotsIn(Ok(Some(StateReport(state)))) == []
  {}

  lemma StandbyHandled(env: Env, st: State, b: Books, state: DeviceState, st': State, s: State, r: Outcome, ok: bool,
                       now: nat)
    requires Prepared(env, b, st) && st.lastState != Some(state) && st' == st.(lastState := Some(state))
    requires Tally(st.log) == BeforeAsking(AddChange(b, Named(state, false)), Wake)
    requires Asked(st', s, Wake, env.wakeup, ok) && (AllAccepted(env) ==> ok)
    requires r == if ok then Ok(Some(StateReport(state))) else Err(Transport)
    ensures Handled(env, b, st, s, r, now)
  {
    AskedTally(st', s, Wake, env.wakeup, ok);
    ChangeInOrder(env, b, st, st', Named(state, false));
    RequestInOrder(env, AddChange(b, Named(state, false)), st', s, Wake, ok, Tally(s.log));
    ReportNames(state);
    if ok {
      ChangePromised(env, b, st, Named(state, false), Tally(s.log), r);
    }
  }

  lemma ReportHandled(env: Env, st: State, b: Books, state: DeviceState, s: State, r: Outcome, now: nat)
    requires Prepared(env, b, st) && st.lastState != Some(state) && s == st.(lastState := Some(state))
    requires Tally(st.log) == AddChange(b, Named(state, false)) && r == Ok(Some(StateReport(state)))
    ensures Handled(env, b, st, s, r, now)
  {
    ReportNames(state);
    ChangeInOrder(env, b, st, s, Named(state, false));
    ChangePromised(env, b, st, Named(state, false), Tally(s.log), r);
  }

  lemma StateChangeBooks(env: Env, st: State, b: Books, state: DeviceState, s: State, r: Outcome, now: nat)
    requires Prepared(env, b, st) && (s, r) == OnStateChange(env, st, state)
    requires Tally(st.log) == Took(b, StateChange(state), now, st.phase, st.lastState)
    ensures Handled(env, b, st, s, r, now)
  {
    if st.lastState == Some(state) {
      StateChangeIs(env, st, state);
      QuietHandled(env, b, st, s, r, now);
    } else if AsksWake(st, state) {
      var ok := StandbyIs(env, st, state);
      StandbyHandled(env, st, b, state, st.(lastState := Some(state)), s, r, ok, now);
    } else {
      StateChangeIs(env, st, state);
      ReportHandled(env, st, b, state, s, r, now);
    }
  }

  function AddShot(b: Books, a: Arrival): Books { b.(shots := TakeShot(b.shots, a)) }

  lemma ShotHandled(env: Env, st: State, b: Books, a: Arrival, recent: seq<Arrival>, isNew: bool, s: State, r: Outcome)
    requires Prepared(env, b, st) && Tally(st.log) == AddShot(b, a) && s == st.(recent := recent)
    requires (recent, isNew) == Offer(st.recent, a)
    requires NamedIn(r) == [] && ShotsIn(r) == (if isNew then [a.id] else []) && r.Ok?
    ensures Handled(env, b, st, s, r, a.at)
  {
    TakeShotOk(b.shots, st.recent, a);
    TakeShotDue(b.shots, st.recent, a);
    StatesIdle(b.states, st.lastState, st.pending);
    OneLaterNow(b.shots.arrivals, a);
  }

  lemma OneLaterNow(arrivals: seq<Arrival>, a: Arrival)
    ensures OneLater(arrivals, arrivals + [a], a.at)
  {
    assert (arrivals + [a])[..|arrivals|] == arrivals;
  }

  lemma ShotBooks(env: Env, st: State, b: Books, shot: ShotData, s: State, r: Outcome, now: nat)
    requires Prepared(env, b, st) && Tally(st.log) == AddShot(b, Arrival(shot.shotId, now))
    requires (s, r) == OnShot(st, shot, now)
    ensures Handled(env, b, st, s, r, now)
  {
    var a := Arrival(shot.shotId, now);
    var (recent, isNew) := Offer(st.recent, a);
    ShotHandled(env, st, b, a, recent, isNew, s, r);
  }

  lemma OtherBooks(env: Env, st: State, b: Books, s: State, e: EnvelopeEvent, now: nat)
    requires Prepared(env, b, st) && s == st.(log := s.log) && Tally(s.log) == b
    requires !e.SubscribeResult? && !e.WakeResult? && !e.StateChange? && !e.ShotResult?
    ensures OnEnvelope(env, s, e, now).0 == s && Handled(env, b, st, s, OnEnvelope(env, s, e, now).1, now)
  {
    OtherIs(env, s, e, now);
    QuietHandled(env, b, st, s, OnEnvelope(env, s, e, now).1, now);
  }

  lemma OtherIs(env: Env, st: State, e: EnvelopeEvent, now: nat)
    requires !e.SubscribeResult? && !e.WakeResult? && !e.StateChange? && !e.ShotResult?
    ensures OnEnvelope(env, st, e, now).0 == st && Quiet(OnEnvelope(env, st, e, now).1)
  {}

  lemma EnvelopeBooks(env: Env, st: State, e: EnvelopeEvent, now: nat, s0: State, s: State, r: Outcome)
    requires Prepared(env, Tally(st.log), st) && s0 == st.Note(GotEnvelope(e, now, st.phase, st.lastState))
    requires (s, r) == OnEnvelope(env, s0, e, now)
    ensures Handled(env, Tally(st.log), st, s, r, now)
  {
    var b := Tally(st.log);
    TallyPush(st.log, GotEnvelope(e, now, st.phase, st.lastState));
    match e {
      case SubscribeResult(success) => SubscribeResultBooks(env, s0, b, success, s, r, now);
      case WakeResult(status) => WakeResultBooks(env, s0, b, status, s, r, now);
      case StateChange(state) => StateChangeBooks(env, s0, b, state, s, r, now);
      case ShotResult(shot) => ShotBooks(env, s0, b, shot, s, r, now);
      case _ => OtherBooks(env, st, b, s0, e, now);
    }
  }

  // ----- Frames -----

  /** What handling a frame of type `t` does to the books, its report included. */
  ghost predicate Dispatched(env: Env, b: Books, st: State, s: State, r: Outcome, t: Word, now: nat) {
    var b' := Tally(s.log);
    && InOrder(env, Announced(b', r), s) && Decided(b')
    && b'.acks == b'.owed + (if r.Ok? && Ackable(t) then [t] else [])
    && b'.got == b.got && s.buf == st.buf && s.handle == st.handle && OneLater(b.shots.arrivals, b'.shots.arrivals, now)
  }

  /** `b` are the books of `st`, with nothing left to acknowledge, decide or report. */
  ghost predicate AtRest(env: Env, b: Books, st: State) {
    b == Tally(st.log) && b.acks == b.owed && Prepared(env, b, st)
  }

  lemma QuietDispatched(env: Env, b: Books, st: State, s: State, r: Outcome, t: Word, now: nat)
    requires Quiet(r) && InOrder(env, Tally(s.log), s) && Decided(Tally(s.log))
    requires Tally(s.log).acks == Tally(s.log).owed + (if r.Ok? && Ackable(t) then [t] else [])
    requires Tally(s.log).got == b.got && s.buf == st.buf && s.handle == st.handle
    requires OneLater(b.shots.arrivals, Tally(s.log).shots.arrivals, now)
    ensures Dispatched(env, b, st, s, r, t, now)
  {
    QuietAnnounced(Tally(s.log), r);
  }

  /** One acknowledgment, written or not, and nothing else. */
  predicate AckTried(st: State, s: State, t: Word, payload: seq<Byte>, ok: bool) {
    s == st.(attempts := s.attempts, written := s.written, log := st.log + [Tried(Ack(t, 0, payload), ok)])
  }

  lemma AckIs(env: Env, st: State, t: Word, payload: seq<Byte>)
    ensures var (s, ok) := SendAck(env, st, t, payload); AckTried(st, s, t, payload, ok) && (AllAccepted(env) ==> ok)
  {
    SendIs(env, st, Ack(t, 0, payload));
  }

  lemma AckTally(st: State, s: State, t: Word, payload: seq<Byte>, ok: bool)
    requires AckTried(st, s, t, payload, ok)
    ensures var b := Tally(st.log);
      Tally(s.log) == if ok then Close(b.(acks := b.acks + [t]), Written) else Fail(b)
  {
    TallyPush(st.log, Tried(Ack(t, 0, payload), ok));
  }

  lemma PlainAckTally(env: Env, b: Books, st: State, s: State, t: Word, payload: seq<Byte>, ok: bool)
    requires AtRest(env, b, st) && AckTried(st, s, t, payload, ok) && (AllAccepted(env) ==> ok)
    ensures var b' := Tally(s.log);
      && b' == (if ok then b.(acks := b.acks + [t]) else Fail(b))
      && InOrder(env, b', st) && Decided(b')
  {
    AckTally(st, s, t, payload, ok);
    if ok {
      CloseIdle(b.(acks := b.acks + [t]), Written);
    } else {
      FailInOrder(env, b, st);
    }
  }

  lemma PlainAckBooks(env: Env, b: Books, st: State, s: State, t: Word, payload: seq<Byte>, ok: bool, s': State,
                      now: nat)
    requires AtRest(env, b, st) && Ackable(t) && AckTried(st, s, t, payload, ok) && (AllAccepted(env) ==> ok)
    requires s' == s.(phase := s'.phase)
    ensures Dispatched(env, b, st, s', if ok then Ok(None) else Err(Transport), t, now)
  {
    PlainAckTally(env, b, st, s, t, payload, ok);
    QuietDispatched(env, b, st, s', if ok then Ok(None) else Err(Transport), t, now);
  }

  lemma FitBooks(env: Env, b: Books, st: State, t: Word, now: nat)
    requires AtRest(env, b, st) && Ackable(t)
    ensures var (s, r) := FitMessage(env, st, t); Dispatched(env, b, st, s, r, t, now)
  {
    var (s, ok) := SendAck(env, st, t, [0]);
    AckIs(env, st, t, [0]);
    PlainAckBooks(env, b, st, s, t, [0], ok, s, now);
  }

  lemma DeviceInfoBooks(env: Env, b: Books, st: State, payload: seq<Byte>, now: nat)
    requires AtRest(env, b, st)
    ensures var (s, r) := HandleDeviceInfo(env, st, payload); Dispatched(env, b, st, s, r, MSG_DEVICE_INFO, now)
  {
    if |payload| >= DEVICE_INFO_MIN {
      var (s, ok) := SendAck(env, st, MSG_DEVICE_INFO, HOST_INFO);
      AckIs(env, st, MSG_DEVICE_INFO, HOST_INFO);
      PlainAckBooks(env, b, st, s, MSG_DEVICE_INFO, HOST_INFO, ok, HandleDeviceInfo(env, st, payload).0, now);
    } else {
      QuietDispatched(env, b, st, st, Err(FrameTooShort), MSG_DEVICE_INFO, now);
    }
  }

  function AnsweredBooks(b: Books, acked: bool, answered: bool): Books {
    var c := b.(acks := b.acks + [MSG_CONFIGURATION]);
    if !acked then Fail(b)
    else if answered then c
    else Fail(c.(owed := c.owed + [MSG_CONFIGURATION]))
  }

  lemma AnswerTally(log: seq<Entry>, log': seq<Entry>, b: Books, acked: bool, answered: bool)
    requires b == Tally(log) && Decided(b) && log' == log + AnswerLog(acked, answered) && (answered ==> acked)
    ensures Tally(log') == AnsweredBooks(b, acked, answered)
  {
    var ack := Tried(Ack(MSG_CONFIGURATION, 0, []), acked);
    TallyPush(log, ack);
    if acked {
      CloseIdle(b.(acks := b.acks + [MSG_CONFIGURATION]), Written);
      TallyPush(log + [ack], Tried(HostCapabilities, answered));
      assert log' == log + [ack] + [Tried(HostCapabilities, answered)];
    } else {
      assert log' == log + [ack];
    }
  }

  lemma AnsweredInOrder(env: Env, b: Books, st: State, acked: bool, answered: bool)
    requires InOrder(env, b, st) && Decided(b) && b.acks == b.owed
    requires (answered ==> acked) && (AllAccepted(env) ==> answered)
    ensures var b' := AnsweredBooks(b, acked, answered);
      && InOrder(env, b', st) && Decided(b')
      && b'.acks == b'.owed + (if answered then [MSG_CONFIGURATION] else [])
  {
    if !acked {
      FailInOrder(env, b, st);
    } else if !answered {
      var c := b.(acks := b.acks + [MSG_CONFIGURATION], owed := b.owed + [MSG_CONFIGURATION]);
      FailInOrder(env, c, st);
    }
  }

  lemma ConfigurationBooks(env: Env, b: Books, st: State, now: nat)
    requires AtRest(env, b, st)
    ensures var (s, r) := HandleConfiguration(env, st); Dispatched(env, b, st, s, r, MSG_CONFIGURATION, now)
  {
    var (s, r) := HandleConfiguration(env, st);
    var acked, answered := ConfigurationIs(env, st);
    AnswerTally(st.log, s.log, b, acked, answered);
    AnsweredInOrder(env, b, st, acked, answered);
    QuietDispatched(env, b, st, s, r, MSG_CONFIGURATION, now);
  }

  lemma HandshakeDoneBooks(env: Env, b: Books, st: State, s: State, r: Outcome, st': State, ok: bool, now: nat)
    requires AtRest(env, b, st) && st' == st.Note(GotAckOf(MSG_CONFIGURATION)).(phase := Subscribing)
    requires Asked(st', s, Subscribe, env.subscribe, ok) && (AllAccepted(env) ==> ok) && Quiet(r)
    ensures Dispatched(env, b, st, s, r, MSG_ACK, now)
  {
    TallyPush(st.log, GotAckOf(MSG_CONFIGURATION));
    AskedTally(st', s, Subscribe, env.subscribe, ok);
    RequestInOrder(env, b, st', s, Subscribe, ok, Tally(s.log));
    QuietDispatched(env, b, st, s, r, MSG_ACK, now);
  }

  lemma OtherAckBooks(env: Env, b: Books, st: State, payload: seq<Byte>, s: State, r: Outcome, now: nat)
    requires AtRest(env, b, st) && !StartsSubscription(st, payload) && (s, r) == HandleAck(env, st, payload)
    ensures Dispatched(env, b, st, s, r, MSG_ACK, now)
  {
    AckFrameIs(env, st, payload);
    if |payload| >= 3 && payload[2] == 0 {
      TallyPush(st.log, GotAckOf(FromLe(payload[0], payload[1])));
    }
    QuietDispatched(env, b, st, s, r, MSG_ACK, now);
  }

  lemma AckFrameBooks(env: Env, b: Books, st: State, payload: seq<Byte>, now: nat)
    requires AtRest(env, b, st)
    ensures var (s, r) := HandleAck(env, st, payload); Dispatched(env, b, st, s, r, MSG_ACK, now)
  {
    var (s, r) := HandleAck(env, st, payload);
    if StartsSubscription(st, payload) {
      var ok := HandshakeDoneIs(env, st, payload);
      HandshakeDoneBooks(env, b, st, s, r, st.Note(GotAckOf(MSG_CONFIGURATION)).(phase := Subscribing), ok, now);
    } else {
      OtherAckBooks(env, b, st, payload, s, r, now);
    }
  }

  /** An envelope that was handled, and the acknowledgment that goes out for it or fails. */
  lemma EnvelopeAcked(env: Env, b: Books, st: State, u: State, r: Outcome, s: State, t: Word, ok: bool, now: nat)
    requires b.acks == b.owed && Ackable(t) && Handled(env, b, st, u, r, now) && r.Ok?
    requires AckTried(u, s, t, [], ok) && (AllAccepted(env) ==> ok)
    ensures Dispatched(env, b, st, s, if ok then r else Err(Transport), t, now)
  {
    var c := Tally(u.log);
    AckTally(u, s, t, [], ok);
    if ok {
      PromiseKept(env, c, u, r, c.acks + [t]);
    } else {
      FailInOrder(env, c, u);
      QuietAnnounced(Fail(c), Err(Transport));
    }
  }

  lemma EnvelopeHandled(env: Env, b: Books, st: State, payload: seq<Byte>, u: State, r: Outcome, now: nat)
    requires AtRest(env, b, st) && (u, r) == HandleProtobuf(env, st, payload, now)
    ensures Handled(env, b, st, u, r, now)
  {
    var e := EnvelopeOf(env, payload);
    if e.Ok? {
      EnvelopeBooks(env, st, e.value, now, st.Note(GotEnvelope(e.value, now, st.phase, st.lastState)), u, r);
    } else {
      QuietHandled(env, b, st, st, r, now);
    }
  }

  /** How the message ends, once its envelope has been handled with result `r`. */
  lemma ProtobufIs(env: Env, st: State, t: Word, payload: seq<Byte>, now: nat, u: State, r: Outcome, s: State, ok: bool)
    requires (u, r) == HandleProtobuf(env, st, payload, now) && (s, ok) == SendAck(env, u, t, [])
    ensures ProtobufMessage(env, st, t, payload, now) ==
      if r.Err? then (u, r) else (s, if ok then r else Err(Transport))
  {}

  lemma ProtobufBooks(env: Env, b: Books, st: State, t: Word, payload: seq<Byte>, now: nat)
    requires AtRest(env, b, st) && Ackable(t)
    ensures var (s, r) := ProtobufMessage(env, st, t, payload, now); Dispatched(env, b, st, s, r, t, now)
  {
    var (u, r) := HandleProtobuf(env, st, payload, now);
    var (s, ok) := SendAck(env, u, t, []);
    EnvelopeHandled(env, b, st, payload, u, r, now);
    ProtobufIs(env, st, t, payload, now, u, r, s, ok);
    if r.Ok? {
      AckIs(env, u, t, []);
      EnvelopeAcked(env, b, st, u, r, s, t, ok, now);
    } else {
      QuietAnnounced(Tally(u.log), r);
    }
  }

  /** Each branch of the dispatch, with the message types it answers. */
  lemma DispatchIs(env: Env, st: State, f: GfdiFrame, now: nat)
    ensures f.msgType == MSG_DEVICE_INFO ==> Dispatch(env, st, f, now) == HandleDeviceInfo(env, st, f.payload)
    ensures f.msgType == MSG_CONFIGURATION ==> Dispatch(env, st, f, now) == HandleConfiguration(env, st)
    ensures f.msgType == MSG_ACK ==> Dispatch(env, st, f, now) == HandleAck(env, st, f.payload)
    ensures f.msgType == MSG_FIT_DEFINITION || f.msgType == MSG_FIT_DATA
      ==> Dispatch(env, st, f, now) == FitMessage(env, st, f.msgType)
    ensures f.msgType == MSG_PROTOBUF_REQUEST || f.msgType == MSG_PROTOBUF_RESPONSE
      ==> Dispatch(env, st, f, now) == ProtobufMessage(env, st, f.msgType, f.payload, now)
    ensures !Ackable(f.msgType) && f.msgType != MSG_ACK ==> Dispatch(env, st, f, now) == (st, Ok(None))
  {}

  lemma DispatchBooks(env: Env, b: Books, st: State, f: GfdiFrame, now: nat, s: State, r: Outcome)
    requires AtRest(env, b, st) && (s, r) == Dispatch(env, st, f, now)
    ensures Dispatched(env, b, st, s, r, f.msgType, now)
  {
    DispatchIs(env, st, f, now);
    if f.msgType == MSG_DEVICE_INFO {
      DeviceInfoBooks(env, b, st, f.payload, now);
    } else if f.msgType == MSG_CONFIGURATION {
      ConfigurationBooks(env, b, st, now);
    } else if f.msgType == MSG_ACK {
      AckFrameBooks(env, b, st, f.payload, now);
    } else if f.msgType == MSG_FIT_DEFINITION || f.msgType == MSG_FIT_DATA {
      FitBooks(env, b, st, f.msgType, now);
    } else if Ackable(f.msgType) {
      ProtobufBooks(env, b, st, f.msgType, f.payload, now);
    } else {
      QuietDispatched(env, b, st, s, r, f.msgType, now);
    }
  }

  // ----- Polls -----

  /** The type of the next frame in the buffer, if there is one and it parses. */
  function Taken(buf: seq<Byte>): seq<Word> {
    match StreamBuffers.NextOf(buf).0
    case None => []
    case Some(bytes) =>
      match ParseCobsFrame(bytes)
      case Err(_) => []
      case Ok(f) => [f.msgType]
  }

  /** The books balance again, having taken up messages of the types `taken`, and the buffer is `buf`. */
  ghost predicate Polled(env: Env, b: Books, s: State, taken: seq<Word>, buf: seq<Byte>, handle: Byte, now: nat) {
    && Balanced(env, s) && Tally(s.log).got == b.got + taken && s.buf == buf && s.handle == handle
    && OneLater(b.shots.arrivals, Tally(s.log).shots.arrivals, now)
  }

  /** The message is booked as handled, and its result reported. */
  lemma DoneBooks(env: Env, b: Books, st: State, s: State, r: Outcome, t: Word, s': State, now: nat)
    requires Dispatched(env, b, st, s, r, t, now) && s' == if r.Ok? then s.Note(Done(t)) else s
    ensures Polled(env, b, Report(s', r).0, [], st.buf, st.handle, now)
  {
    DoneTally(env, s, r, t, s');
    ReportBooks(env, s', r);
    assert b.got + [] == b.got;
  }

  lemma DoneTally(env: Env, s: State, r: Outcome, t: Word, s': State)
    requires var c := Tally(s.log);
      && c.acks == c.owed + (if r.Ok? && Ackable(t) then [t] else [])
      && Decided(c) && InOrder(env, Announced(c, r), s)
    requires s' == if r.Ok? then s.Note(Done(t)) else s
    ensures var c, d := Tally(s.log), Tally(s'.log);
      d.acks == d.owed && Decided(d) && InOrder(env, Announced(d, r), s') && d.got == c.got &&
        d.shots.arrivals == c.shots.arrivals
  {
    var c := Tally(s.log);
    OwedDone(c, r, if Ackable(t) then c.owed + [t] else c.owed);
    if r.Ok? {
      TallyPush(s.log, Done(t));
      DoneInOrder(env, c, r, Tally(s'.log), s, s');
    }
  }

  lemma DoneInOrder(env: Env, c: Books, r: Outcome, d: Books, s: State, s': State)
    requires Decided(c) && InOrder(env, Announced(c, r), s) && d == c.(owed := d.owed) && s' == s.(log := s'.log)
    ensures Decided(d) && InOrder(env, Announced(d, r), s')
  {}

  lemma OwedDone(c: Books, r: Outcome, owed: seq<Word>)
    ensures Announced(c.(owed := owed), r) == Announced(c, r).(owed := owed) && c.owed + [] == c.owed
  {}

  lemma ReportBooks(env: Env, s: State, r: Outcome)
    requires var b := Tally(s.log); b.acks == b.owed && Decided(b) && InOrder(env, Announced(b, r), s)
    ensures var s' := Report(s, r).0;
      && Balanced(env, s') && s'.buf == s.buf && s'.handle == s.handle
      && Tally(s'.log).got == Tally(s.log).got && Tally(s'.log).shots.arrivals == Tally(s.log).shots.arrivals
  {
    AnnouncedIs(Tally(s.log), r);
    if r.Ok? && r.value.Some? {
      TallyPush(s.log, Emitted(r.value.value, false));
    }
  }

  lemma FrameBooks(env: Env, st: State, f: GfdiFrame, now: nat)
    requires Balanced(env, st) && st.pending == None
    ensures var (s, r) := HandleFrame(env, st, f, now);
      Polled(env, Tally(st.log), Report(s, r).0, [f.msgType], st.buf, st.handle, now)
  {
    var s0 := st.Note(Got(f.msgType));
    TallyPush(st.log, Got(f.msgType));
    var (s, r) := Dispatch(env, s0, f, now);
    DispatchBooks(env, Tally(s0.log), s0, f, now, s, r);
    DoneBooks(env, Tally(s0.log), s0, s, r, f.msgType, HandleFrame(env, st, f, now).0, now);
  }

  lemma NextFrameBooks(env: Env, st: State, now: nat)
    requires Balanced(env, st) && st.pending == None
    ensures var (s, r) := NextFrame(env, st, now);
      Polled(env, Tally(st.log), Report(s, r).0, Taken(st.buf), StreamBuffers.NextOf(st.buf).1, st.handle, now)
  {
    var (cobs, rest) := StreamBuffers.NextOf(st.buf);
    var s := st.(buf := rest);
    if cobs.Some? && ParseCobsFrame(cobs.value).Ok? {
      FrameBooks(env, s, ParseCobsFrame(cobs.value).value, now);
    } else {
      assert Tally(st.log).got + [] == Tally(st.log).got;
    }
  }

  /** The buffer once a poll has appended what it read. */
  function FedBuffer(st: State, rd: Read): seq<Byte> {
    if rd.Chunk? && rd.data != [] && (st.phase != Registering || ParseRegisterResponse(rd.data) == None) then
      Feed(st, rd.data).0.buf
    else st.buf
  }

  /**
    Whether a poll goes on to the next frame: not if the read failed, a registration is open, or the buffer
    overflowed.
   */
  predicate GoesOn(st: State, rd: Read) {
    || rd == WouldBlock || rd == Chunk([])
    || (rd.Chunk? && rd.data != [] && st.phase != Registering && Feed(st, rd.data).1)
  }

  /** What one poll takes up, and the buffer it leaves. */
  ghost predicate PollsTo(env: Env, st: State, rd: Read, now: nat, s: State) {
    var buf := FedBuffer(st, rd);
    && Balanced(env, s)
    && OneLater(Tally(st.log).shots.arrivals, Tally(s.log).shots.arrivals, now)
    && (if st.pending == None && GoesOn(st, rd) then
          Tally(s.log).got == Tally(st.log).got + Taken(buf) && s.buf == StreamBuffers.NextOf(buf).1
        else
          Tally(s.log).got == Tally(st.log).got && s.buf == if st.pending == None then buf else st.buf)
  }

  lemma FeedIs(st: State, data: seq<Byte>)
    ensures var (s, ok) := Feed(st, data); s == st.(buf := s.buf)
  {}

  lemma BalancedElsewhere(env: Env, st: State, s: State)
    requires Balanced(env, st) && s == st.(handle := s.handle, phase := s.phase, buf := s.buf)
    ensures Balanced(env, s)
  {}

  lemma RegisterIs(st: State, data: seq<Byte>)
    ensures var (s, r) := HandleRegisterResponse(st, data);
      && s == st.(handle := s.handle, phase := s.phase,
                  buf := if ParseRegisterResponse(data) == None then Feed(st, data).0.buf else st.buf)
      && Quiet(r) && (r.Ok? && r.value.Some? ==> r.value.value.Registered?)
  {}

  lemma RegisterBooks(env: Env, st: State, data: seq<Byte>)
    requires Balanced(env, st)
    ensures var (s, r) := HandleRegisterResponse(st, data); var s' := Report(s, r).0;
      && Balanced(env, s') && s'.buf == s.buf
      && Tally(s'.log).got == Tally(st.log).got && Tally(s'.log).shots.arrivals == Tally(st.log).shots.arrivals
  {
    var (s, r) := HandleRegisterResponse(st, data);
    RegisterIs(st, data);
    BalancedElsewhere(env, st, s);
    QuietAnnounced(Tally(s.log), r);
    ReportBooks(env, s, r);
  }

  lemma FeedBooks(env: Env, st: State, data: seq<Byte>, now: nat, u: State)
    requires Balanced(env, st) && st.pending == None && u == Feed(st, data).0
    ensures Balanced(env, u) && Tally(u.log) == Tally(st.log)
    ensures var (s, r) := NextFrame(env, u, now);
      Polled(env, Tally(st.log), Report(s, r).0, Taken(u.buf), StreamBuffers.NextOf(u.buf).1, u.handle, now)
  {
    FeedIs(st, data);
    BalancedElsewhere(env, st, u);
    NextFrameBooks(env, u, now);
  }

  lemma RegisterPolls(env: Env, st: State, data: seq<Byte>, now: nat)
    requires Balanced(env, st) && st.pending == None && data != [] && st.phase == Registering
    ensures var (s, r) := HandleRegisterResponse(st, data); PollsTo(env, st, Chunk(data), now, Report(s, r).0)
  {
    RegisterBooks(env, st, data);
    RegisterIs(st, data);
  }

  lemma FeedReadIs(env: Env, st: State, data: seq<Byte>, now: nat, u: State, ok: bool)
    requires data != [] && st.phase != Registering && (u, ok) == Feed(st, data)
    ensures ReadAndHandle(env, st, Chunk(data), now) == if ok then NextFrame(env, u, now) else (u, Err(FrameTooShort))
    ensures FedBuffer(st, Chunk(data)) == u.buf && GoesOn(st, Chunk(data)) == ok
  {}

  lemma FeedPolls(env: Env, st: State, data: seq<Byte>, now: nat, u: State, ok: bool)
    requires Balanced(env, st) && st.pending == None && data != [] && st.phase != Registering &&
      (u, ok) == Feed(st, data)
    ensures var (s, r) := ReadAndHandle(env, st, Chunk(data), now); PollsTo(env, st, Chunk(data), now, Report(s, r).0)
  {
    FeedReadIs(env, st, data, now, u, ok);
    FeedBooks(env, st, data, now, u);
  }

  lemma NextPolls(env: Env, st: State, rd: Read, now: nat)
    requires Balanced(env, st) && st.pending == None && (rd == WouldBlock || rd == Chunk([]))
    ensures var (s, r) := NextFrame(env, st, now); PollsTo(env, st, rd, now, Report(s, r).0)
  {
    NextFrameBooks(env, st, now);
  }

  lemma ReadBooks(env: Env, st: State, rd: Read, now: nat)
    requires Balanced(env, st) && st.pending == None
    ensures var (s, r) := ReadAndHandle(env, st, rd, now); PollsTo(env, st, rd, now, Report(s, r).0)
  {
    match rd {
      case Failed =>
      case WouldBlock => NextPolls(env, st, rd, now);
      case Chunk(data) =>
        if data == [] {
          NextPolls(env, st, rd, now);
        } else if st.phase == Registering {
          RegisterPolls(env, st, data, now);
        } else {
          var (u, ok) := Feed(st, data);
          FeedPolls(env, st, data, now, u, ok);
        }
    }
  }

  lemma QueuedBooks(env: Env, st: State, s: State)
    requires Balanced(env, st) && st.pending.Some? && s == st.(pending := None).Note(Emitted(st.pending.value, true))
    ensures var b, b' := Tally(st.log), Tally(s.log);
      Balanced(env, s) && b'.got == b.got && b'.shots == b.shots
  {
    TallyPush(st.log, Emitted(Ready, true));
    QueuedReported(Tally(st.log).states, st.lastState);
  }

  lemma QueuedReported(b: StateBook, last: Option<DeviceState>)
    requires StatesOk(b, last, Some(Ready))
    ensures StatesOk(b.(reported := b.reported + [Named(Waiting, true)]), last, None)
  {
    var n := b.reported + [Named(Waiting, true)];
    assert n + [] == n;
  }

  lemma PollBooks(env: Env, st: State, rd: Read, now: nat)
    requires Balanced(env, st)
    ensures PollsTo(env, st, rd, now, Poll(env, st, rd, now).0)
  {
    if st.pending == None {
      ReadBooks(env, st, rd, now);
    } else {
      QueuedBooks(env, st, Poll(env, st, rd, now).0);
    }
  }

  lemma EnvironmentBooks(env: Env, st: State, pb: seq<Byte>)
    requires Balanced(env, st)
    ensures var s, b := SendEnvironment(env, st, pb).0, Tally(st.log);
      && Balanced(env, s) && s.buf == st.buf && Tally(s.log).got == b.got &&
        Tally(s.log).shots.arrivals == b.shots.arrivals
  {
    var (s, ok) := SendRequest(env, st, Environment, pb);
    RequestIs(env, st, Environment, pb);
    AskedTally(st, s, Environment, pb, ok);
    RequestInOrder(env, Tally(st.log), st, s, Environment, ok, Tally(s.log));
  }

  // ----- Sessions -----

  lemma BalancedMeans(env: Env, st: State)
    requires Balanced(env, st)
    ensures var b := Tally(st.log); b.acks == b.owed && st.recent == Cache(b.shots.arrivals)
    ensures st.pending == None || st.pending == Some(Ready)
  {}

  /** The books of every session balance. */
  lemma {:induction false} RunBalanced(env: Env, ops: seq<Op>)
    ensures Balanced(env, Run(env, ops))
  {
    if ops == [] {
      InitialBalanced(env, Run(env, ops));
    } else {
      RunBalanced(env, ops[..|ops| - 1]);
      ApplyBooks(env, Run(env, ops[..|ops| - 1]), ops[|ops| - 1], Run(env, ops));
    }
  }

  lemma InitialBalanced(env: Env, st: State)
    requires st == INITIAL
    ensures Balanced(env, st)
  {
    assert Tally([]) == EMPTY;
  }

  lemma ApplyBooks(env: Env, st: State, op: Op, s: State)
    requires Balanced(env, st) && s == Apply(env, st, op)
    ensures Balanced(env, s)
  {
    match op {
      case Start(ok) => BalancedElsewhere(env, st, s);
      case DoPoll(rd, now) => PollBooks(env, st, rd, now);
      case SetEnvironment(pb) => EnvironmentBooks(env, st, pb);
    }
  }
}
