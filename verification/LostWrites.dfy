/** What a failed write costs: exactly when a message's report is lost, and sessions in which that shows. */
module LostWrites {
  import opened Wrappers
  import opened Bytes
  import opened Gfdi
  import opened Multilink
  import opened Shots
  import opened ClientModel
  import opened Ledger
  import opened Accounting
  import StreamBuffers

  // ----- One message -----

  /** A protobuf message is reported with its envelope's result exactly if its acknowledgment, too, can be written. */
  lemma AckedAfter(env: Env, st: State, t: Word, payload: seq<Byte>, now: nat, u: State, r: Outcome)
    requires HandleProtobuf(env, st, payload, now) == (u, r) && r.Ok?
    ensures var (s, r') := ProtobufMessage(env, st, t, payload, now); var ok := Goes(env, u, Ack(t, 0, []));
      && AckTried(u, s, t, [], ok) && r' == (if ok then r else Err(Transport))
      && (if ok then s.attempts == u.attempts + |ChunksOf(env, u, Ack(t, 0, []))| else s.attempts > u.attempts)
  {
    var (s, ok) := SendAck(env, u, t, []);
    ProtobufIs(env, st, t, payload, now, u, r, s, ok);
    SendIs(env, u, Ack(t, 0, []));
  }

  /**
    Every write for a change of state goes through: of the wake request it asks for, if any, and of the
    acknowledgment.
   */
  predicate ChangeGoes(env: Env, st: State, t: Word, state: DeviceState) {
    var wake := Request(st.reqId, Wake, env.wakeup);
    if AsksWake(st, state) then
      Goes(env, st, wake) && Goes(env, st.(attempts := st.attempts + |ChunksOf(env, st, wake)|), Ack(t, 0, []))
    else Goes(env, st, Ack(t, 0, []))
  }

  lemma SameGoes(env: Env, st: State, s: State, out: Out)
    requires s.handle == st.handle && s.attempts == st.attempts
    ensures Goes(env, s, out) == Goes(env, st, out)
  {}

  /** The state in which an envelope is handled. */
  function Noted(st: State, e: EnvelopeEvent, now: nat): State { st.Note(GotEnvelope(e, now, st.phase, st.lastState)) }

  lemma HandledIs(env: Env, st: State, payload: seq<Byte>, e: EnvelopeEvent, now: nat)
    requires EnvelopeOf(env, payload) == Ok(e)
    ensures HandleProtobuf(env, st, payload, now) == OnEnvelope(env, Noted(st, e, now), e, now)
  {}

  lemma PlainChange(env: Env, st: State, t: Word, payload: seq<Byte>, state: DeviceState, now: nat)
    requires EnvelopeOf(env, payload) == Ok(StateChange(state)) && st.lastState != Some(state) && !AsksWake(st, state)
    ensures var (s, r) := ProtobufMessage(env, st, t, payload, now); var ok := ChangeGoes(env, st, t, state);
      && AckTried(Noted(st, StateChange(state), now).(lastState := Some(state)), s, t, [], ok)
      && r == (if ok then Ok(Some(StateReport(state))) else Err(Transport))
      && (if ok then s.attempts == st.attempts + |ChunksOf(env, st, Ack(t, 0, []))| else s.attempts > st.attempts)
  {
    var st0 := Noted(st, StateChange(state), now);
    var u := st0.(lastState := Some(state));
    HandledIs(env, st, payload, StateChange(state), now);
    StateChangeIs(env, st0, state);
    AckedAfter(env, st, t, payload, now, u, Ok(Some(StateReport(state))));
    SameGoes(env, st, u, Ack(t, 0, []));
  }

  lemma StandbyChange(env: Env, st: State, t: Word, payload: seq<Byte>, state: DeviceState, now: nat)
    requires EnvelopeOf(env, payload) == Ok(StateChange(state)) && st.lastState != Some(state) && AsksWake(st, state)
    ensures var (s, r) := ProtobufMessage(env, st, t, payload, now);
      s.lastState == Some(state) &&
        r == if ChangeGoes(env, st, t, state) then Ok(Some(StateReport(state))) else Err(Transport)
  {
    var st0 := Noted(st, StateChange(state), now);
    var (u, r) := OnStateChange(env, st0, state);
    var ok := StandbyIs(env, st0, state);
    HandledIs(env, st, payload, StateChange(state), now);
    SameGoes(env, st, st0, Request(st.reqId, Wake, env.wakeup));
    if ok {
      AckedAfter(env, st, t, payload, now, u, r);
      SameGoes(env, st.(attempts := u.attempts), u, Ack(t, 0, []));
    } else {
      var (s, acked) := SendAck(env, u, t, []);
      ProtobufIs(env, st, t, payload, now, u, r, s, acked);
    }
  }

  /** A change of state is remembered in any case, and reported exactly if every write for it goes through. */
  lemma StateReportedExactly(env: Env, st: State, t: Word, payload: seq<Byte>, state: DeviceState, now: nat)
    requires EnvelopeOf(env, payload) == Ok(StateChange(state)) && st.lastState != Some(state)
    ensures var (s, r) := ProtobufMessage(env, st, t, payload, now);
      s.lastState == Some(state) &&
        r == if ChangeGoes(env, st, t, state) then Ok(Some(StateReport(state))) else Err(Transport)
  {
    if AsksWake(st, state) {
      StandbyChange(env, st, t, payload, state, now);
    } else {
      PlainChange(env, st, t, payload, state, now);
    }
  }

  /** A shot is remembered in any case, and reported exactly if it is new and its acknowledgment can be written. */
  lemma ShotReportedIffAcked(env: Env, st: State, t: Word, payload: seq<Byte>, shot: ShotData, now: nat)
    requires EnvelopeOf(env, payload) == Ok(ShotResult(shot))
    ensures var (recent, isNew) := Offer(st.recent, Arrival(shot.shotId, now));
      var (s, r) := ProtobufMessage(env, st, t, payload, now); var ok := Goes(env, st, Ack(t, 0, []));
      && AckTried(Noted(st, ShotResult(shot), now).(recent := recent), s, t, [], ok)
      && r == if !ok then Err(Transport) else if isNew then Ok(Some(Shot(shot))) else Ok(None)
  {
    var st0 := Noted(st, ShotResult(shot), now);
    var (u, r) := OnShot(st0, shot, now);
    HandledIs(env, st, payload, ShotResult(shot), now);
    AckedAfter(env, st, t, payload, now, u, r);
    SameGoes(env, st, u, Ack(t, 0, []));
  }

  // ----- Sessions in which it shows -----

  /** A frame handled, and its result reported: one poll that finds this frame in the buffer. */
  function AfterFrame(env: Env, st: State, f: GfdiFrame, now: nat): State {
    var (s, r) := HandleFrame(env, st, f, now);
    Report(s, r).0
  }

  /** The two books the examples look at. */
  predicate SameBooks(b: Books, c: Books) { b.states == c.states && b.shots == c.shots }

  /** That is what a poll does that reads nothing and finds the frame complete. */
  lemma AfterIsPoll(env: Env, st: State, e: seq<Byte>, rest: seq<Byte>, f: GfdiFrame, now: nat)
    requires st.pending == None && StreamBuffers.NextOf(st.buf) == (Some(e), rest) && ParseCobsFrame(e) == Ok(f)
    ensures Poll(env, st, WouldBlock, now).0 == AfterFrame(env, st.(buf := rest), f, now)
  {}

  lemma ReportTally(s: State, r: Outcome)
    ensures Tally(Report(s, r).0.log) == Announced(Tally(s.log), r)
  {
    AnnouncedIs(Tally(s.log), r);
    if r.Ok? && r.value.Some? {
      TallyPush(s.log, Emitted(r.value.value, false));
    }
  }

  lemma SameAnnounced(b: Books, c: Books, r: Outcome)
    requires SameBooks(b, c)
    ensures SameBooks(Announced(b, r), Announced(c, r))
  {}

  lemma ReportedTally(s: State, r: Outcome, t: Word, s': State)
    requires s' == if r.Ok? then s.Note(Done(t)) else s
    ensures SameBooks(Tally(Report(s', r).0.log), Announced(Tally(s.log), r))
  {
    ReportTally(s', r);
    if r.Ok? {
      TallyPush(s.log, Done(t));
    }
    SameAnnounced(Tally(s'.log), Tally(s.log), r);
  }

  lemma SameTook(b: Books, c: Books, e: EnvelopeEvent, now: nat, phase: Phase, last: Option<DeviceState>)
    requires SameBooks(b, c)
    ensures SameBooks(Took(b, e, now, phase, last), Took(c, e, now, phase, last))
  {}

  lemma NotedTally(st: State, t: Word, e: EnvelopeEvent, now: nat, log: seq<Entry>)
    requires log == st.log + [Got(t)] + [GotEnvelope(e, now, st.phase, st.lastState)]
    ensures SameBooks(Tally(log), Took(Tally(st.log), e, now, st.phase, st.lastState))
  {
    TallyPush(st.log, Got(t));
    TallyPush(st.log + [Got(t)], GotEnvelope(e, now, st.phase, st.lastState));
    SameTook(Tally(st.log + [Got(t)]), Tally(st.log), e, now, st.phase, st.lastState);
  }

  lemma TakenTally(st: State, t: Word, e: EnvelopeEvent, now: nat, u: State, s: State, ok: bool)
    requires u.log == st.log + [Got(t)] + [GotEnvelope(e, now, st.phase, st.lastState)] && AckTried(u, s, t, [], ok)
    ensures SameBooks(Tally(s.log),
                      Close(Took(Tally(st.log), e, now, st.phase, st.lastState), if ok then Written else Lost))
  {
    NotedTally(st, t, e, now, u.log);
    AckTally(u, s, t, [], ok);
  }

  /**
    A change of state taken up from `st`, with no wake to ask for: reported if its acknowledgment goes out, lost if
    not.
   */
  ghost predicate ChangeTaken(st: State, s: State, state: DeviceState, ok: bool) {
    var b, c := Tally(st.log).states, Tally(s.log).states;
    && s.lastState == Some(state) && s.handle == st.handle && s.phase == st.phase
    && c == StateBook(b.changes + [Named(state, false)], b.fates + [if ok then Written else Lost],
                      b.reported + (if ok then [Named(state, false)] else []))
  }

  lemma NewDecided(fates: seq<Fate>, f: Fate)
    ensures Decide(fates + [Undecided], f) == fates + [f]
  {}

  lemma ChangeIsTaken(env: Env, st: State, f: GfdiFrame, state: DeviceState, now: nat, ok: bool)
    requires f.msgType == MSG_PROTOBUF_RESPONSE && EnvelopeOf(env, f.payload) == Ok(StateChange(state))
    requires st.lastState != Some(state) && !AsksWake(st, state) && ok == Goes(env, st, Ack(f.msgType, 0, []))
    ensures var s := AfterFrame(env, st, f, now);
      && ChangeTaken(st, s, state, ok)
      && (if ok then s.attempts == st.attempts + |ChunksOf(env, st, Ack(f.msgType, 0, []))|
          else s.attempts > st.attempts)
  {
    var st0 := st.Note(Got(f.msgType));
    var (s, r) := ProtobufMessage(env, st0, f.msgType, f.payload, now);
    var u := Noted(st0, StateChange(state), now).(lastState := Some(state));
    SameGoes(env, st, st0, Ack(f.msgType, 0, []));
    PlainChange(env, st0, f.msgType, f.payload, state, now);
    TakenTally(st, f.msgType, StateChange(state), now, u, s, ok);
    NewDecided(Tally(st.log).states.fates, if ok then Written else Lost);
    ReportNames(state);
    DispatchIs(env, st0, f, now);
    AfterIs(env, st, f, now, s, r);
  }

  /** What the frame comes to, from what dispatching it comes to. */
  lemma AfterIs(env: Env, st: State, f: GfdiFrame, now: nat, s: State, r: Outcome)
    requires Dispatch(env, st.Note(Got(f.msgType)), f, now) == (s, r)
    ensures var s' := AfterFrame(env, st, f, now);
      s' == s.(log := s'.log) && SameBooks(Tally(s'.log), Announced(Tally(s.log), r)) &&
        HandleFrame(env, st, f, now).1 == r
  {
    ReportedTally(s, r, f.msgType, HandleFrame(env, st, f, now).0);
  }

  // ----- A change of state lost and undone -----

  /** An environment in which an acknowledgment takes `n` writes, and only the first write of the second one fails. */
  ghost predicate FailsSecond(env: Env, n: nat) {
    && n > 0 && (forall k: nat :: env.accepts(k) <==> k != n)
    && |env.chunksOf(0, Ack(MSG_PROTOBUF_RESPONSE, 0, []))| == n
  }

  lemma {:induction false} GrantedUnless(env: Env, bad: nat, first: nat, n: nat)
    requires (forall k: nat :: env.accepts(k) <==> k != bad) && (bad < first || first + n <= bad)
    ensures Granted(env.accepts, first, n) == n
    decreases n
  {
    if n > 0 {
      GrantedUnless(env, bad, first + 1, n - 1);
    }
  }

  lemma SecondFails(env: Env, n: nat, st: State)
    requires FailsSecond(env, n) && st.handle == 0 && (st.attempts == 0 || st.attempts >= n)
    ensures Goes(env, st, Ack(MSG_PROTOBUF_RESPONSE, 0, [])) <==> st.attempts != n
  {
    if st.attempts != n {
      GrantedUnless(env, n, st.attempts, n);
    }
  }

  /** The device waits, records, and waits again; the acknowledgment of the second message fails. */
  lemma WaitingTwice(env: Env, n: nat, waiting: GfdiFrame, recording: GfdiFrame, now: nat)
    requires FailsSecond(env, n)
    requires waiting.msgType == MSG_PROTOBUF_RESPONSE && EnvelopeOf(env, waiting.payload) == Ok(StateChange(Waiting))
    requires recording.msgType == MSG_PROTOBUF_RESPONSE &&
      EnvelopeOf(env, recording.payload) == Ok(StateChange(Recording))
    ensures
      var s := AfterFrame(env, AfterFrame(env, AfterFrame(env, INITIAL, waiting, now), recording, now), waiting, now);
      && Tally(s.log).states.reported == [Named(Waiting, false), Named(Waiting, false)]
      && Tally(s.log).states.fates == [Written, Lost, Written]
  {
    var s1 := AfterFrame(env, INITIAL, waiting, now);
    SecondFails(env, n, INITIAL);
    ChangeIsTaken(env, INITIAL, waiting, Waiting, now, true);
    var s2 := AfterFrame(env, s1, recording, now);
    SecondFails(env, n, s1);
    ChangeIsTaken(env, s1, recording, Recording, now, false);
    SecondFails(env, n, s2);
    ChangeIsTaken(env, s2, waiting, Waiting, now, true);
    assert Tally(INITIAL.log) == EMPTY;
  }

  // ----- A shot lost -----

  predicate ShotTaken(st: State, s: State, a: Arrival, ok: bool) {
    var (recent, isNew) := Offer(st.recent, a);
    var b, c := Tally(st.log).shots, Tally(s.log).shots;
    && s.recent == recent && s.handle == st.handle
    && c == ShotBook(b.arrivals + [a], b.fates + [if ok then Written else Lost],
                     b.reported + (if ok && isNew then [a.id] else []))
  }

  lemma ShotIsTaken(env: Env, st: State, f: GfdiFrame, shot: ShotData, now: nat, ok: bool)
    requires f.msgType == MSG_PROTOBUF_RESPONSE && EnvelopeOf(env, f.payload) == Ok(ShotResult(shot))
    requires ok == Goes(env, st, Ack(f.msgType, 0, []))
    ensures var s := AfterFrame(env, st, f, now);
      ShotTaken(st, s, Arrival(shot.shotId, now), ok) && (!ok ==> s.attempts > st.attempts)
  {
    var st0 := st.Note(Got(f.msgType));
    var (s, r) := ProtobufMessage(env, st0, f.msgType, f.payload, now);
    var u := Noted(st0, ShotResult(shot), now).(recent := Offer(st.recent, Arrival(shot.shotId, now)).0);
    SameGoes(env, st, st0, Ack(f.msgType, 0, []));
    ShotReportedIffAcked(env, st0, f.msgType, f.payload, shot, now);
    TakenTally(st, f.msgType, ShotResult(shot), now, u, s, ok);
    NewDecided(Tally(st.log).shots.fates, if ok then Written else Lost);
    DispatchIs(env, st0, f, now);
    AfterIs(env, st, f, now, s, r);
  }

  /** An environment in which only the first write fails. */
  ghost predicate FailsFirst(env: Env) {
    && (forall k: nat :: env.accepts(k) <==> k != 0)
    && env.chunksOf(0, Ack(MSG_PROTOBUF_RESPONSE, 0, [])) != []
  }

  lemma FirstFails(env: Env, st: State)
    requires FailsFirst(env) && st.handle == 0
    ensures Goes(env, st, Ack(MSG_PROTOBUF_RESPONSE, 0, [])) <==> st.attempts != 0
  {
    if st.attempts != 0 {
      GrantedUnless(env, 0, st.attempts, |ChunksOf(env, st, Ack(MSG_PROTOBUF_RESPONSE, 0, []))|);
    }
  }

  /** A shot sent, and sent again within 60 seconds because its acknowledgment failed: it is never reported. */
  lemma ShotSentTwice(env: Env, f: GfdiFrame, shot: ShotData, now: nat, later: nat)
    requires FailsFirst(env) && now <= later < now + SHOT_DEDUP_WINDOW_SECS * NANOS
    requires f.msgType == MSG_PROTOBUF_RESPONSE && EnvelopeOf(env, f.payload) == Ok(ShotResult(shot))
    ensures var s := AfterFrame(env, AfterFrame(env, INITIAL, f, now), f, later);
      Tally(s.log).shots == ShotBook([Arrival(shot.shotId, now), Arrival(shot.shotId, later)], [Lost, Written], [])
  {
    var a, b := Arrival(shot.shotId, now), Arrival(shot.shotId, later);
    var s1 := AfterFrame(env, INITIAL, f, now);
    FirstFails(env, INITIAL);
    ShotIsTaken(env, INITIAL, f, shot, now, false);
    FirstFails(env, s1);
    ShotIsTaken(env, s1, f, shot, later, true);
    KnownAgain(a, b);
    assert Tally(INITIAL.log) == EMPTY;
  }

  lemma KnownAgain(a: Arrival, b: Arrival)
    requires a.id == b.id && a.at <= b.at < a.at + SHOT_DEDUP_WINDOW_SECS * NANOS
    ensures Offer([], a) == ([a], true) && !Offer([a], b).1
  {
    assert Prune([], a.at) == [] && [a][..0] == [];
    FreshMeans(b.at, a.at);
    PrunePush([], a, b.at);
    assert Prune([a], b.at) == [a];
    assert [a][0].id == b.id;
  }

  // ----- Active without having subscribed, or asked for a wake -----

  function Sends(e: Entry, kind: RequestKind): nat {
    if e.Sent? && e.out.Request? && e.out.kind == kind then 1 else 0
  }

  /** How many requests of a kind were sent. */
  function RequestsSent(log: seq<Entry>, kind: RequestKind): nat {
    if log == [] then 0 else RequestsSent(log[..|log| - 1], kind) + Sends(log[|log| - 1], kind)
  }

  lemma SendsPush(log: seq<Entry>, e: Entry, kind: RequestKind)
    ensures RequestsSent(log + [e], kind) == RequestsSent(log, kind) + Sends(e, kind)
  {
    assert (log + [e])[..|log|] == log;
  }

  /** Reporting a message sends nothing. */
  lemma FinishedSends(s: State, r: Outcome, t: Word, s': State, kind: RequestKind)
    requires s' == if r.Ok? then s.Note(Done(t)) else s
    ensures RequestsSent(Report(s', r).0.log, kind) == RequestsSent(s.log, kind)
  {
    SendsPush(s.log, Done(t), kind);
    if r.Ok? && r.value.Some? {
      SendsPush(s'.log, Emitted(r.value.value, false), kind);
    }
  }

  lemma AfterSends(env: Env, st: State, f: GfdiFrame, now: nat, s: State, r: Outcome, kind: RequestKind)
    requires Dispatch(env, st.Note(Got(f.msgType)), f, now) == (s, r)
    ensures var s' := AfterFrame(env, st, f, now);
      s' == s.(log := s'.log) && RequestsSent(s'.log, kind) == RequestsSent(s.log, kind)
  {
    FinishedSends(s, r, f.msgType, HandleFrame(env, st, f, now).0, kind);
  }

  /** From `st` to `s` the session went to `phase`, having sent so many subscriptions and wake requests. */
  predicate Stepped(st: State, s: State, phase: Phase, subscribed: nat, woken: nat) {
    && s.phase == phase && s.handle == st.handle
    && RequestsSent(s.log, Subscribe) == RequestsSent(st.log, Subscribe) + subscribed
    && RequestsSent(s.log, Wake) == RequestsSent(st.log, Wake) + woken
  }

  lemma SteppedOn(env: Env, st: State, f: GfdiFrame, now: nat, s: State, r: Outcome, phase: Phase, subscribed: nat,
                  woken: nat)
    requires Dispatch(env, st.Note(Got(f.msgType)), f, now) == (s, r) && Stepped(st, s, phase, subscribed, woken)
    ensures var s' := AfterFrame(env, st, f, now);
      s' == s.(log := s'.log) && Stepped(st, s', phase, subscribed, woken)
  {
    AfterSends(env, st, f, now, s, r, Subscribe);
    AfterSends(env, st, f, now, s, r, Wake);
  }

  lemma AskedSends(st: State, e: Entry, u: State, s: State, kind: RequestKind, pb: seq<Byte>, ok: bool, k: RequestKind)
    requires u.log == st.log + [e] && Asked(u, s, kind, pb, ok) && !e.Sent?
    ensures RequestsSent(s.log, k) == RequestsSent(st.log, k) + (if ok && k == kind then 1 else 0)
  {
    SendsPush(st.log, e, k);
    SendsPush(u.log, Tried(Request(u.reqId, kind, pb), ok), k);
  }

  /** The awaited ACK arrives: the session moves on whether the subscription can be written or not. */
  lemma AckStep(env: Env, st: State, f: GfdiFrame, now: nat, ok: bool)
    requires f.msgType == MSG_ACK && StartsSubscription(st, f.payload)
    requires ok == Goes(env, st, Request(st.reqId, Subscribe, env.subscribe))
    ensures var s := AfterFrame(env, st, f, now);
      && Stepped(st, s, Subscribing, if ok then 1 else 0, 0)
      && s.reqId == (st.reqId + 1) % 0x1_0000
      && (ok ==> s.attempts == st.attempts + |ChunksOf(env, st, Request(st.reqId, Subscribe, env.subscribe))|)
  {
    var st0 := st.Note(Got(f.msgType));
    var (s, r) := HandleAck(env, st0, f.payload);
    var u := st0.Note(GotAckOf(MSG_CONFIGURATION)).(phase := Subscribing);
    DispatchIs(env, st0, f, now);
    SameGoes(env, st, st0, Request(st.reqId, Subscribe, env.subscribe));
    var sent := HandshakeDoneIs(env, st0, f.payload);
    NotedAsk(st, Got(f.msgType), GotAckOf(MSG_CONFIGURATION), u, s, Subscribe, env.subscribe, ok);
    SteppedOn(env, st, f, now, s, r, Subscribing, if ok then 1 else 0, 0);
  }

  lemma NotedAsk(st: State, e: Entry, e': Entry, u: State, s: State, kind: RequestKind, pb: seq<Byte>, ok: bool)
    requires u.log == st.log + [e] + [e'] && Asked(u, s, kind, pb, ok) && !e.Sent? && !e'.Sent? && kind != Environment
    requires u.handle == st.handle
    ensures Stepped(st, s, u.phase, if ok && kind == Subscribe then 1 else 0, if ok && kind == Wake then 1 else 0)
  {
    var v := st.Note(e);
    SendsPush(st.log, e, Subscribe);
    SendsPush(st.log, e, Wake);
    AskedSends(v, e', u, s, kind, pb, ok, Subscribe);
    AskedSends(v, e', u, s, kind, pb, ok, Wake);
  }

  /** However the acknowledgment of a handled envelope ends, it sends no request. */
  lemma AckedStep(env: Env, st: State, f: GfdiFrame, now: nat, u: State, r: Outcome, subscribed: nat, woken: nat)
    requires f.msgType == MSG_PROTOBUF_RESPONSE &&
      (u, r) == HandleProtobuf(env, st.Note(Got(f.msgType)), f.payload, now)
    requires Stepped(st, u, u.phase, subscribed, woken)
    ensures Stepped(st, AfterFrame(env, st, f, now), u.phase, subscribed, woken)
  {
    var st0 := st.Note(Got(f.msgType));
    var (s, ok) := SendAck(env, u, f.msgType, []);
    DispatchIs(env, st0, f, now);
    ProtobufIs(env, st0, f.msgType, f.payload, now, u, r, s, ok);
    if r.Ok? {
      AckIs(env, u, f.msgType, []);
      SendsPush(u.log, Tried(Ack(f.msgType, 0, []), ok), Subscribe);
      SendsPush(u.log, Tried(Ack(f.msgType, 0, []), ok), Wake);
      SteppedOn(env, st, f, now, s, if ok then r else Err(Transport), u.phase, subscribed, woken);
    } else {
      SteppedOn(env, st, f, now, u, r, u.phase, subscribed, woken);
    }
  }

  /** The subscription is answered: the session moves on whether the wake request can be written or not. */
  lemma SubscribedStep(env: Env, st: State, f: GfdiFrame, success: bool, now: nat, ok: bool)
    requires f.msgType == MSG_PROTOBUF_RESPONSE && EnvelopeOf(env, f.payload) == Ok(SubscribeResult(success))
    requires st.phase == Subscribing && ok == Goes(env, st, Request(st.reqId, Wake, env.wakeup))
    ensures Stepped(st, AfterFrame(env, st, f, now), WakingUp, 0, if ok then 1 else 0)
  {
    var st0, e := st.Note(Got(f.msgType)), SubscribeResult(success);
    var u0 := Noted(st0, e, now);
    var (u, r) := OnSubscribeResult(env, u0, success);
    HandledIs(env, st0, f.payload, e, now);
    SameGoes(env, st, u0, Request(st.reqId, Wake, env.wakeup));
    var sent := SubscribeResultIs(env, u0, success);
    NotedAsk(st, Got(f.msgType), GotEnvelope(e, now, st.phase, st.lastState), u0.(phase := WakingUp), u, Wake,
             env.wakeup, ok);
    AckedStep(env, st, f, now, u, r, 0, if ok then 1 else 0);
  }

  /** The wake is answered: the session is active, whatever can be written. */
  lemma WokenStep(env: Env, st: State, f: GfdiFrame, status: int, now: nat)
    requires f.msgType == MSG_PROTOBUF_RESPONSE && EnvelopeOf(env, f.payload) == Ok(WakeResult(status))
    requires st.phase == WakingUp
    ensures Stepped(st, AfterFrame(env, st, f, now), Active, 0, 0)
  {
    var st0, e := st.Note(Got(f.msgType)), WakeResult(status);
    var u0 := Noted(st0, e, now);
    var (u, r) := OnWakeResult(u0, status);
    HandledIs(env, st0, f.payload, e, now);
    WakeResultIs(u0, status);
    QuietEntries(st, Got(f.msgType), GotEnvelope(e, now, st.phase, st.lastState), Subscribe);
    QuietEntries(st, Got(f.msgType), GotEnvelope(e, now, st.phase, st.lastState), Wake);
    AckedStep(env, st, f, now, u, r, 0, 0);
  }

  lemma QuietEntries(st: State, e: Entry, e': Entry, kind: RequestKind)
    requires !e.Sent? && !e'.Sent?
    ensures RequestsSent(st.log + [e] + [e'], kind) == RequestsSent(st.log, kind)
  {
    SendsPush(st.log, e, kind);
    SendsPush(st.log + [e], e', kind);
  }

  /**
    A session awaiting the ACK of its capabilities gets the three answers it waits for, and is active at the end,
    having sent of its two requests exactly those that could be written.
   */
  lemma AnswersActivate(env: Env, st: State, ack: GfdiFrame, subscribed: GfdiFrame, woken: GfdiFrame, now: nat)
    requires ack.msgType == MSG_ACK && StartsSubscription(st, ack.payload)
    requires subscribed.msgType == MSG_PROTOBUF_RESPONSE &&
      EnvelopeOf(env, subscribed.payload) == Ok(SubscribeResult(true))
    requires woken.msgType == MSG_PROTOBUF_RESPONSE && EnvelopeOf(env, woken.payload) == Ok(WakeResult(0))
    ensures var s1 := AfterFrame(env, st, ack, now);
      var s := AfterFrame(env, AfterFrame(env, s1, subscribed, now), woken, now);
      Stepped(st, s, Active, if Goes(env, st, Request(st.reqId, Subscribe, env.subscribe)) then 1 else 0,
              if Goes(env, s1, Request(s1.reqId, Wake, env.wakeup)) then 1 else 0)
  {
    var s1 := AfterFrame(env, st, ack, now);
    var s2 := AfterFrame(env, s1, subscribed, now);
    AckStep(env, st, ack, now, Goes(env, st, Request(st.reqId, Subscribe, env.subscribe)));
    SubscribedStep(env, s1, subscribed, true, now, Goes(env, s1, Request(s1.reqId, Wake, env.wakeup)));
    WokenStep(env, s2, woken, 0, now);
  }

  /** So a session whose subscription could not be written becomes active without having sent one. */
  lemma ActiveUnsubscribed(env: Env, st: State, ack: GfdiFrame, subscribed: GfdiFrame, woken: GfdiFrame, now: nat)
    requires ack.msgType == MSG_ACK && StartsSubscription(st, ack.payload)
    requires !Goes(env, st, Request(st.reqId, Subscribe, env.subscribe))
    requires subscribed.msgType == MSG_PROTOBUF_RESPONSE &&
      EnvelopeOf(env, subscribed.payload) == Ok(SubscribeResult(true))
    requires woken.msgType == MSG_PROTOBUF_RESPONSE && EnvelopeOf(env, woken.payload) == Ok(WakeResult(0))
    ensures var s := AfterFrame(env, AfterFrame(env, AfterFrame(env, st, ack, now), subscribed, now), woken, now);
      s.phase == Active && RequestsSent(s.log, Subscribe) == RequestsSent(st.log, Subscribe)
  {
    AnswersActivate(env, st, ack, subscribed, woken, now);
  }

  /** Device capabilities that can be answered. */
  lemma ConfigurationStep(env: Env, st: State, f: GfdiFrame, now: nat)
    requires f.msgType == MSG_CONFIGURATION && Goes(env, st, Ack(MSG_CONFIGURATION, 0, []))
    requires Goes(env, st.(attempts := st.attempts + |ChunksOf(env, st, Ack(MSG_CONFIGURATION, 0, []))|),
                  HostCapabilities)
    ensures var s := AfterFrame(env, st, f, now);
      && Stepped(st, s, WaitCapabilitiesAck, 0, 0) && s.reqId == st.reqId
      && s.attempts == st.attempts + |ChunksOf(env, st, Ack(MSG_CONFIGURATION, 0, []))| +
        |ChunksOf(env, st, HostCapabilities)|
  {
    var st0, ack := st.Note(Got(f.msgType)), Ack(MSG_CONFIGURATION, 0, []);
    var (u, ok) := SendFrame(env, st0, ack);
    var (t, ok') := SendFrame(env, u, HostCapabilities);
    DispatchIs(env, st0, f, now);
    SendIs(env, st0, ack);
    SameGoes(env, st, st0, ack);
    SendIs(env, u, HostCapabilities);
    SameGoes(env, st.(attempts := u.attempts), u, HostCapabilities);
    ThreeQuiet(st.log, Got(f.msgType), Sent(ack), Sent(HostCapabilities), Subscribe);
    ThreeQuiet(st.log, Got(f.msgType), Sent(ack), Sent(HostCapabilities), Wake);
    SteppedOn(env, st, f, now, t.(phase := WaitCapabilitiesAck), Ok(None), WaitCapabilitiesAck, 0, 0);
  }

  lemma ThreeQuiet(log: seq<Entry>, a: Entry, b: Entry, c: Entry, kind: RequestKind)
    requires Sends(a, kind) == Sends(b, kind) == Sends(c, kind) == 0
    ensures RequestsSent(log + [a] + [b] + [c], kind) == RequestsSent(log, kind)
  {
    SendsPush(log, a, kind);
    SendsPush(log + [a], b, kind);
    SendsPush(log + [a] + [b], c, kind);
  }
}
