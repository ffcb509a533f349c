/** A session from the register command to the active phase, on a link whose writes succeed. */
module FullSession {
  import opened Wrappers
  import opened Bytes
  import opened Gfdi
  import opened FrameOnWire
  import opened ClientModel
  import opened Answers
  import opened OnTheLink

  // ----- What a log says was sent and reported -----

  lemma {:induction false} TriesAppend(a: seq<Entry>, b: seq<Entry>)
    ensures Tries(a + b) == Tries(a) + Tries(b)
  {
    if b == [] {
      assert a + b == a;
    } else {
      var n := |b| - 1;
      TriesAppend(a, b[..n]);
      TriesPush(a + b[..n], b[n]);
      assert a + b == (a + b[..n]) + [b[n]];
    }
  }

  /** The events reported, queued or not, in order. */
  function Events(log: seq<Entry>): seq<Event> {
    if log == [] then []
    else
      var e := log[|log| - 1];
      Events(log[..|log| - 1]) + (if e.Emitted? then [e.event] else [])
  }

  lemma {:induction false} EventsAppend(a: seq<Entry>, b: seq<Entry>)
    ensures Events(a + b) == Events(a) + Events(b)
  {
    if b == [] {
      assert a + b == a;
    } else {
      var n := |b| - 1;
      EventsAppend(a, b[..n]);
      assert a + b == (a + b[..n]) + [b[n]];
      assert (a + b)[..|a + b| - 1] == a + b[..n];
    }
  }

  lemma EventsPush(log: seq<Entry>, e: Entry)
    ensures Events(log + [e]) == Events(log) + (if e.Emitted? then [e.event] else [])
  {
    assert (log + [e])[..|log|] == log;
  }

  function EventOf(r: Outcome): seq<Event> { if r.Ok? && r.value.Some? then [r.value.value] else [] }

  /** The end of a message's log: done, and reported. */
  lemma EndSays(log: seq<Entry>, t: Word, r: Outcome)
    ensures var all := log + (if r.Ok? then [Done(t)] else [])
                       + (if r.Ok? && r.value.Some? then [Emitted(r.value.value, false)] else []);
      Tries(all) == Tries(log) && Events(all) == Events(log) + EventOf(r)
  {
    if r.Ok? {
      var done := log + [Done(t)];
      TriesPush(log, Done(t));
      EventsPush(log, Done(t));
      if r.value.Some? {
        TriesPush(done, Emitted(r.value.value, false));
        EventsPush(done, Emitted(r.value.value, false));
      } else {
        assert done + [] == done;
      }
    } else {
      assert log + [] + [] == log;
    }
  }

  lemma StepsSay(before: seq<Entry>, t: Word, steps: seq<Entry>)
    requires Events(steps) == []
    ensures var log := before + [Got(t)] + steps;
      Tries(log) == Tries(before) + Tries(steps) && Events(log) == Events(before)
  {
    TriesPush(before, Got(t));
    EventsPush(before, Got(t));
    TriesAppend(before + [Got(t)], steps);
    EventsAppend(before + [Got(t)], steps);
  }

  /** What a message taken up adds to both. */
  lemma LoggedSays(before: seq<Entry>, t: Word, steps: seq<Entry>, r: Outcome, log: seq<Entry>)
    requires log == Logged(before, t, steps, r) && Events(steps) == []
    ensures Tries(log) == Tries(before) + Tries(steps) && Events(log) == Events(before) + EventOf(r)
  {
    var mid := before + [Got(t)] + steps;
    StepsSay(before, t, steps);
    EndSays(mid, t, r);
  }

  predicate IsTry(e: Entry) { e.Sent? || e.Unsent? }

  lemma OneEntry(e: Entry)
    requires !e.Emitted?
    ensures Tries([e]) == (if IsTry(e) then [e] else []) && Events([e]) == []
  {
    TriesPush([], e);
    EventsPush([], e);
    assert [] + [e] == [e];
  }

  lemma TwoEntries(a: Entry, b: Entry)
    requires !a.Emitted? && !b.Emitted? && IsTry(b)
    ensures Tries([a, b]) == (if IsTry(a) then [a, b] else [b]) && Events([a, b]) == []
  {
    OneEntry(a);
    TriesPush([a], b);
    EventsPush([a], b);
    assert [a] + [b] == [a, b];
  }

  lemma ThreeEntries(a: Entry, b: Entry, c: Entry)
    requires !a.Emitted? && !IsTry(a) && IsTry(b) && IsTry(c)
    ensures Tries([a, b] + [c]) == [b, c] && Events([a, b] + [c]) == []
  {
    TwoEntries(a, b);
    TriesPush([a, b], c);
    EventsPush([a, b], c);
  }

  // ----- One step of the session -----

  /** Nothing is buffered or queued. */
  predicate Idle(st: State, handle: Byte, phase: Phase) {
    st.handle == handle && st.phase == phase && st.buf == [] && st.pending == None
  }

  /** A message small enough for the buffer, that arrives as sent. */
  predicate Deliverable(t: Word, payload: seq<Byte>) {
    Faithful(t, payload) && |WrapCobs(BuildFrame(t, payload))| <= 65536
  }

  function ChunkWith(handle: Byte, t: Word, payload: seq<Byte>): Read {
    Chunk([handle] + WrapCobs(BuildFrame(t, payload)))
  }

  /** One chunk that holds the whole message: the poll that reads it takes it up. */
  lemma ChunkTakenUp(env: Env, st: State, t: Word, payload: seq<Byte>, now: nat, s: State) returns (fed: State)
    requires Idle(st, st.handle, st.phase) && st.phase != Registering && Deliverable(t, payload)
    requires s == Poll(env, st, ChunkWith(st.handle, t, payload), now).0
    ensures TookUp(env, st, fed, GfdiFrame(t, None, payload), now, s)
  {
    var w := WrapCobs(BuildFrame(t, payload));
    fed := st.(buf := w);
    ChunkRead(env, st, w, now);
    assert [] + w == w;
    assert w + [] == w;
    BufferedIsTakenUp(fed, t, payload, []);
  }

  /** `s` is `st` once it has taken up this message, read into an empty buffer. */
  predicate TookUp(env: Env, st: State, fed: State, f: GfdiFrame, now: nat, s: State) {
    fed == st.(buf := fed.buf) && TakesUp(fed, f, []) && s == Poll(env, fed, WouldBlock, now).0
  }

  /** From `st` to `s`: these frames were sent, and this event, if any, was reported. */
  predicate Went(st: State, s: State, handle: Byte, phase: Phase, sent: seq<Entry>, events: seq<Event>) {
    Idle(s, handle, phase) && Tries(s.log) == Tries(st.log) + sent && Events(s.log) == Events(st.log) + events
  }

  lemma AllGo(env: Env, st: State, out: Out)
    requires AllAccepted(env)
    ensures Goes(env, st, out)
  {
    GrantedAll(env, st.attempts, |ChunksOf(env, st, out)|);
  }

  lemma InfoSays(env: Env, st: State, fed: State, f: GfdiFrame, now: nat, s: State)
    requires AllAccepted(env) && Idle(st, st.handle, WaitDeviceInfo) && TookUp(env, st, fed, f, now, s)
    requires f.msgType == 5024 && |f.payload| >= 12
    ensures Went(st, s, st.handle, WaitCapabilities, [Sent(Ack(5024, 0, HOST_INFO))], []) && s.reqId == st.reqId
  {
    var out := Ack(5024, 0, HOST_INFO);
    DeviceInfoAnswered(env, fed, f, [], now);
    AllGo(env, fed, out);
    OneEntry(Sent(out));
    LoggedSays(st.log, 5024, [Sent(out)], Ok(None), s.log);
  }

  lemma CapabilitiesSentBoth(env: Env, fed: State, f: GfdiFrame, now: nat, s: State)
    requires AllAccepted(env) && TakesUp(fed, f, []) && f.msgType == 5050 && s == Poll(env, fed, WouldBlock, now).0
    ensures s == fed.(buf := [], phase := WaitCapabilitiesAck, attempts := s.attempts, written := s.written,
                      log := s.log)
    ensures s.log == Logged(fed.log, 5050, [Sent(Ack(5050, 0, [])), Sent(HostCapabilities)], Ok(None))
  {
    var ack := Ack(5050, 0, []);
    var acked, answered := CapabilitiesAnswered(env, fed, f, [], now);
    AllGo(env, fed, ack);
    AllGo(env, fed.(attempts := fed.attempts + |ChunksOf(env, fed, ack)|), HostCapabilities);
    assert [Sent(ack)] + [Sent(HostCapabilities)] == [Sent(ack), Sent(HostCapabilities)];
  }

  lemma CapabilitiesSays(env: Env, st: State, fed: State, f: GfdiFrame, now: nat, s: State)
    requires AllAccepted(env) && Idle(st, st.handle, WaitCapabilities) && TookUp(env, st, fed, f, now, s)
    requires f.msgType == 5050
    ensures Went(st, s, st.handle, WaitCapabilitiesAck, [Sent(Ack(5050, 0, [])), Sent(HostCapabilities)], [])
    ensures s.reqId == st.reqId
  {
    var steps := [Sent(Ack(5050, 0, [])), Sent(HostCapabilities)];
    CapabilitiesSentBoth(env, fed, f, now, s);
    TwoEntries(Sent(Ack(5050, 0, [])), Sent(HostCapabilities));
    LoggedSays(st.log, 5050, steps, Ok(None), s.log);
  }

  /** 5050, low byte first, and status 0. */
  predicate AcksCapabilities(payload: seq<Byte>) {
    |payload| >= 3 && payload[0] == 0xBA && payload[1] == 0x13 && payload[2] == 0
  }

  lemma AcksIs(f: GfdiFrame)
    requires f.msgType == 5000 && AcksCapabilities(f.payload)
    ensures Acks(f, 5050, 0)
  {}

  lemma AckSubscribes(env: Env, fed: State, f: GfdiFrame, now: nat, s: State)
    requires AllAccepted(env) && TakesUp(fed, f, []) && f.msgType == 5000 && AcksCapabilities(f.payload)
    requires fed.phase == WaitCapabilitiesAck
    requires s == Poll(env, fed, WouldBlock, now).0
    ensures var out := Request(fed.reqId, Subscribe, env.subscribe);
      && s == fed.(buf := [], phase := Subscribing, reqId := (fed.reqId + 1) % 65536, attempts := s.attempts,
                   written := s.written, log := s.log)
      && s.log == Logged(fed.log, 5000, [GotAckOf(5050), Sent(out)], Ok(Some(HandshakeComplete)))
  {
    AcksIs(f);
    AwaitedAck(env, fed, f, [], now);
    AllGo(env, fed, Request(fed.reqId, Subscribe, env.subscribe));
  }

  lemma AckSays(env: Env, st: State, fed: State, f: GfdiFrame, now: nat, s: State)
    requires AllAccepted(env) && Idle(st, st.handle, WaitCapabilitiesAck) && TookUp(env, st, fed, f, now, s)
    requires f.msgType == 5000 && AcksCapabilities(f.payload)
    ensures Went(st, s, st.handle, Subscribing, [Sent(Request(st.reqId, Subscribe, env.subscribe))],
                 [HandshakeComplete])
  {
    var out := Request(st.reqId, Subscribe, env.subscribe);
    AckSubscribes(env, fed, f, now, s);
    TwoEntries(GotAckOf(5050), Sent(out));
    LoggedSays(st.log, 5000, [GotAckOf(5050), Sent(out)], Ok(Some(HandshakeComplete)), s.log);
  }

  lemma SubscribedWakes(env: Env, fed: State, f: GfdiFrame, success: bool, now: nat, s: State)
    requires AllAccepted(env) && TakesUp(fed, f, []) && f.msgType == 5044 && fed.phase == Subscribing
    requires EnvelopeOf(env, f.payload) == Ok(SubscribeResult(success)) && s == Poll(env, fed, WouldBlock, now).0
    ensures Idle(s, fed.handle, WakingUp)
    ensures var e := GotEnvelope(SubscribeResult(success), now, fed.phase, fed.lastState);
      var steps := [e, Sent(Request(fed.reqId, Wake, env.wakeup))] + [Sent(Ack(5044, 0, []))];
      s.log == Logged(fed.log, 5044, steps, Ok(Some(Subscribed(success))))
  {
    var wake := Request(fed.reqId, Wake, env.wakeup);
    SubscribedAsksWake(env, fed, f, [], success, now);
    AllGo(env, fed, wake);
    AllGo(env, fed.(attempts := fed.attempts + |ChunksOf(env, fed, wake)|), Ack(5044, 0, []));
  }

  lemma SubscribedSays(env: Env, st: State, success: bool, e: Entry, s: State)
    requires Idle(s, st.handle, WakingUp) && e.GotEnvelope?
    requires var steps := [e, Sent(Request(st.reqId, Wake, env.wakeup))] + [Sent(Ack(5044, 0, []))];
      s.log == Logged(st.log, 5044, steps, Ok(Some(Subscribed(success))))
    ensures Went(st, s, st.handle, WakingUp, [Sent(Request(st.reqId, Wake, env.wakeup)), Sent(Ack(5044, 0, []))],
                 [Subscribed(success)])
  {
    var wake, ack := Sent(Request(st.reqId, Wake, env.wakeup)), Sent(Ack(5044, 0, []));
    ThreeEntries(e, wake, ack);
    LoggedSays(st.log, 5044, [e, wake] + [ack], Ok(Some(Subscribed(success))), s.log);
  }

  lemma WakeEnds(env: Env, fed: State, f: GfdiFrame, status: int, now: nat, s: State)
    requires AllAccepted(env) && TakesUp(fed, f, []) && f.msgType == 5044 && fed.phase == WakingUp
    requires EnvelopeOf(env, f.payload) == Ok(WakeResult(status)) && status != 1
    requires s == Poll(env, fed, WouldBlock, now).0
    ensures Idle(s, fed.handle, Active)
    ensures var e := GotEnvelope(WakeResult(status), now, fed.phase, fed.lastState);
      s.log == Logged(fed.log, 5044, [e, Sent(Ack(5044, 0, []))], Ok(Some(Woken(status))))
  {
    WakeReported(env, fed, f, [], status, now);
    AllGo(env, fed, Ack(5044, 0, []));
  }

  lemma WokenSays(st: State, status: int, e: Entry, s: State)
    requires Idle(s, st.handle, Active) && e.GotEnvelope?
    requires s.log == Logged(st.log, 5044, [e, Sent(Ack(5044, 0, []))], Ok(Some(Woken(status))))
    ensures Went(st, s, st.handle, Active, [Sent(Ack(5044, 0, []))], [Woken(status)])
  {
    var ack := Sent(Ack(5044, 0, []));
    TwoEntries(e, ack);
    LoggedSays(st.log, 5044, [e, ack], Ok(Some(Woken(status))), s.log);
  }

  lemma RegisterSays(env: Env, st: State, response: seq<Byte>, handle: Byte, now: nat, s: State)
    requires Idle(st, st.handle, Registering) && Grants(response, handle)
    requires s == Poll(env, st, Chunk(response), now).0
    ensures Went(st, s, handle, WaitDeviceInfo, [], [Registered(handle)]) && s.reqId == st.reqId
  {
    var first, txn, service, flags, more :| IsResponse(response, first, txn, service, 0, handle, flags, more);
    Registers(env, st, response, first, txn, service, handle, flags, more, now);
    TriesPush(st.log, Emitted(Registered(handle), false));
    EventsPush(st.log, Emitted(Registered(handle), false));
  }

  // ----- The whole session -----

  /** A successful register response that names this handle. */
  ghost predicate Grants(response: seq<Byte>, handle: Byte) {
    exists first, txn, service, flags, more :: IsResponse(response, first, txn, service, 0, handle, flags, more)
  }

  /** What the device sends, message by message. */
  datatype Device = Device(response: seq<Byte>, handle: Byte, info: seq<Byte>, capabilities: seq<Byte>, ack: seq<Byte>,
                           subscribed: seq<Byte>, success: bool, woken: seq<Byte>, status: int)

  ghost predicate Cooperates(env: Env, d: Device) {
    && Grants(d.response, d.handle)
    && Deliverable(5024, d.info) && |d.info| >= 12
    && Deliverable(5050, d.capabilities)
    && Deliverable(5000, d.ack) && AcksCapabilities(d.ack)
    && Deliverable(5044, d.subscribed) && EnvelopeOf(env, d.subscribed) == Ok(SubscribeResult(d.success))
    && Deliverable(5044, d.woken) && EnvelopeOf(env, d.woken) == Ok(WakeResult(d.status)) && d.status != 1
  }

  /** One poll a message. */
  function Chunks(d: Device): seq<Read> {
    [Chunk(d.response), ChunkWith(d.handle, 5024, d.info), ChunkWith(d.handle, 5050, d.capabilities),
     ChunkWith(d.handle, 5000, d.ack), ChunkWith(d.handle, 5044, d.subscribed), ChunkWith(d.handle, 5044, d.woken)]
  }

  function Polls(chunks: seq<Read>, now: nat): seq<Op> {
    if chunks == [] then [] else Polls(chunks[..|chunks| - 1], now) + [DoPoll(chunks[|chunks| - 1], now)]
  }

  /** The session after the first `n` of these polls. */
  function StageAt(env: Env, before: seq<Op>, d: Device, n: nat, now: nat): State
    requires n <= |Chunks(d)|
  {
    Run(env, before + [Start(true)] + Polls(Chunks(d)[..n], now))
  }

  lemma NextStage(env: Env, before: seq<Op>, d: Device, n: nat, now: nat)
    requires n < |Chunks(d)|
    ensures StageAt(env, before, d, n + 1, now) == Poll(env, StageAt(env, before, d, n, now), Chunks(d)[n], now).0
  {
    var start, polls, op := before + [Start(true)], Polls(Chunks(d)[..n], now), DoPoll(Chunks(d)[n], now);
    assert Chunks(d)[..n + 1][..n] == Chunks(d)[..n];
    assert start + (polls + [op]) == (start + polls) + [op];
    RunPush(env, start + polls, op);
  }

  lemma Started(env: Env, before: seq<Op>, d: Device, now: nat)
    ensures StageAt(env, before, d, 0, now) == Run(env, before).(phase := Registering)
  {
    RunPush(env, before, Start(true));
    assert before + [Start(true)] + [] == before + [Start(true)];
  }

  lemma WentOn(a: State, b: State, c: State, h: Byte, p: Phase, h': Byte, p': Phase, s1: seq<Entry>, e1: seq<Event>,
               s2: seq<Entry>, e2: seq<Event>)
    requires Went(a, b, h, p, s1, e1) && Went(b, c, h', p', s2, e2)
    ensures Went(a, c, h', p', s1 + s2, e1 + e2)
  {
    Associative(Tries(a.log), s1, s2);
    Associative(Events(a.log), e1, e2);
  }

  /** The states of the session, one a message. */
  ghost predicate Stages(env: Env, d: Device, now: nat, s: seq<State>) {
    |s| == 7 && forall n :: 0 <= n < 6 ==> s[n + 1] == Poll(env, s[n], Chunks(d)[n], now).0
  }

  lemma StagesAre(env: Env, before: seq<Op>, d: Device, now: nat) returns (s: seq<State>)
    ensures Stages(env, d, now, s) && s[0] == StageAt(env, before, d, 0, now) && s[6] == StageAt(env, before, d, 6, now)
  {
    s := seq(7, n requires 0 <= n < 7 => StageAt(env, before, d, n, now));
    forall n | 0 <= n < 6 ensures s[n + 1] == Poll(env, s[n], Chunks(d)[n], now).0 {
      NextStage(env, before, d, n, now);
    }
  }

  lemma InfoRead(env: Env, st: State, payload: seq<Byte>, now: nat, s: State)
    requires AllAccepted(env) && Idle(st, st.handle, WaitDeviceInfo) && Deliverable(5024, payload) && |payload| >= 12
    requires s == Poll(env, st, ChunkWith(st.handle, 5024, payload), now).0
    ensures Went(st, s, st.handle, WaitCapabilities, [Sent(Ack(5024, 0, HOST_INFO))], []) && s.reqId == st.reqId
  {
    var fed := ChunkTakenUp(env, st, 5024, payload, now, s);
    InfoSays(env, st, fed, GfdiFrame(5024, None, payload), now, s);
  }

  lemma FirstReads(env: Env, d: Device, now: nat, s: seq<State>)
    requires AllAccepted(env) && Cooperates(env, d) && Stages(env, d, now, s) && Idle(s[0], s[0].handle, Registering)
    ensures Went(s[0], s[1], d.handle, WaitDeviceInfo, [], [Registered(d.handle)]) && s[1].reqId == s[0].reqId
    ensures Went(s[1], s[2], d.handle, WaitCapabilities, [Sent(Ack(5024, 0, HOST_INFO))], [])
    ensures s[2].reqId == s[1].reqId
  {
    assert Chunks(d)[0] == Chunk(d.response) && Chunks(d)[1] == ChunkWith(d.handle, 5024, d.info);
    RegisterSays(env, s[0], d.response, d.handle, now, s[1]);
    InfoRead(env, s[1], d.info, now, s[2]);
  }

  lemma Opening(env: Env, d: Device, now: nat, s: seq<State>)
    requires AllAccepted(env) && Cooperates(env, d) && Stages(env, d, now, s) && Idle(s[0], s[0].handle, Registering)
    ensures Went(s[0], s[2], d.handle, WaitCapabilities, [] + [Sent(Ack(5024, 0, HOST_INFO))],
                 [Registered(d.handle)] + [])
    ensures s[2].reqId == s[0].reqId
  {
    FirstReads(env, d, now, s);
    WentOn(s[0], s[1], s[2], d.handle, WaitDeviceInfo, d.handle, WaitCapabilities, [], [Registered(d.handle)],
           [Sent(Ack(5024, 0, HOST_INFO))], []);
  }

  lemma CapabilitiesRead(env: Env, st: State, payload: seq<Byte>, now: nat, s: State)
    requires AllAccepted(env) && Idle(st, st.handle, WaitCapabilities) && Deliverable(5050, payload)
    requires s == Poll(env, st, ChunkWith(st.handle, 5050, payload), now).0
    ensures Went(st, s, st.handle, WaitCapabilitiesAck, [Sent(Ack(5050, 0, [])), Sent(HostCapabilities)], [])
    ensures s.reqId == st.reqId
  {
    var fed := ChunkTakenUp(env, st, 5050, payload, now, s);
    CapabilitiesSays(env, st, fed, GfdiFrame(5050, None, payload), now, s);
  }

  lemma AckRead(env: Env, st: State, payload: seq<Byte>, now: nat, s: State)
    requires AllAccepted(env) && Idle(st, st.handle, WaitCapabilitiesAck) && Deliverable(5000, payload)
    requires AcksCapabilities(payload)
    requires s == Poll(env, st, ChunkWith(st.handle, 5000, payload), now).0
    ensures Went(st, s, st.handle, Subscribing, [Sent(Request(st.reqId, Subscribe, env.subscribe))],
                 [HandshakeComplete])
  {
    var fed := ChunkTakenUp(env, st, 5000, payload, now, s);
    AckSays(env, st, fed, GfdiFrame(5000, None, payload), now, s);
  }

  lemma AckTakesId(env: Env, st: State, payload: seq<Byte>, now: nat, s: State)
    requires AllAccepted(env) && Idle(st, st.handle, WaitCapabilitiesAck) && Deliverable(5000, payload)
    requires AcksCapabilities(payload)
    requires s == Poll(env, st, ChunkWith(st.handle, 5000, payload), now).0
    ensures s.reqId == NextId(st.reqId)
  {
    var fed := ChunkTakenUp(env, st, 5000, payload, now, s);
    IdTaken(env, fed, GfdiFrame(5000, None, payload), now, s);
  }

  lemma IdTaken(env: Env, fed: State, f: GfdiFrame, now: nat, s: State)
    requires TakesUp(fed, f, []) && f.msgType == 5000 && AcksCapabilities(f.payload)
    requires fed.phase == WaitCapabilitiesAck && s == Poll(env, fed, WouldBlock, now).0
    ensures s.reqId == NextId(fed.reqId)
  {
    AcksIs(f);
    AwaitedAck(env, fed, f, [], now);
  }

  /** Request ids have 16 bits. */
  function NextId(id: nat): nat { (id + 1) % 65536 }

  lemma Exchange(env: Env, d: Device, now: nat, s: seq<State>)
    requires AllAccepted(env) && Cooperates(env, d) && Stages(env, d, now, s) && Idle(s[2], d.handle, WaitCapabilities)
    ensures Went(s[2], s[4], d.handle, Subscribing,
                 [Sent(Ack(5050, 0, [])), Sent(HostCapabilities)]
                 + [Sent(Request(s[2].reqId, Subscribe, env.subscribe))],
                 [] + [HandshakeComplete])
  {
    assert Chunks(d)[2] == ChunkWith(d.handle, 5050, d.capabilities);
    assert Chunks(d)[3] == ChunkWith(d.handle, 5000, d.ack);
    CapabilitiesRead(env, s[2], d.capabilities, now, s[3]);
    AckRead(env, s[3], d.ack, now, s[4]);
    WentOn(s[2], s[3], s[4], d.handle, WaitCapabilitiesAck, d.handle, Subscribing,
           [Sent(Ack(5050, 0, [])), Sent(HostCapabilities)], [], [Sent(Request(s[2].reqId, Subscribe, env.subscribe))],
           [HandshakeComplete]);
  }

  lemma SubscribedRead(env: Env, st: State, payload: seq<Byte>, success: bool, now: nat, s: State)
    requires AllAccepted(env) && Idle(st, st.handle, Subscribing) && Deliverable(5044, payload)
    requires EnvelopeOf(env, payload) == Ok(SubscribeResult(success))
    requires s == Poll(env, st, ChunkWith(st.handle, 5044, payload), now).0
    ensures Went(st, s, st.handle, WakingUp, [Sent(Request(st.reqId, Wake, env.wakeup)), Sent(Ack(5044, 0, []))],
                 [Subscribed(success)])
  {
    var fed := ChunkTakenUp(env, st, 5044, payload, now, s);
    SubscribedWakes(env, fed, GfdiFrame(5044, None, payload), success, now, s);
    SubscribedSays(env, st, success, GotEnvelope(SubscribeResult(success), now, st.phase, st.lastState), s);
  }

  lemma WokenRead(env: Env, st: State, payload: seq<Byte>, status: int, now: nat, s: State)
    requires AllAccepted(env) && Idle(st, st.handle, WakingUp) && Deliverable(5044, payload)
    requires EnvelopeOf(env, payload) == Ok(WakeResult(status)) && status != 1
    requires s == Poll(env, st, ChunkWith(st.handle, 5044, payload), now).0
    ensures Went(st, s, st.handle, Active, [Sent(Ack(5044, 0, []))], [Woken(status)])
  {
    var fed := ChunkTakenUp(env, st, 5044, payload, now, s);
    WakeEnds(env, fed, GfdiFrame(5044, None, payload), status, now, s);
    WokenSays(st, status, GotEnvelope(WakeResult(status), now, st.phase, st.lastState), s);
  }

  lemma Waking(env: Env, d: Device, now: nat, s: seq<State>)
    requires AllAccepted(env) && Cooperates(env, d) && Stages(env, d, now, s) && Idle(s[4], d.handle, Subscribing)
    ensures Went(s[4], s[6], d.handle, Active,
                 [Sent(Request(s[4].reqId, Wake, env.wakeup)), Sent(Ack(5044, 0, []))] + [Sent(Ack(5044, 0, []))],
                 [Subscribed(d.success)] + [Woken(d.status)])
  {
    assert Chunks(d)[4] == ChunkWith(d.handle, 5044, d.subscribed);
    assert Chunks(d)[5] == ChunkWith(d.handle, 5044, d.woken);
    SubscribedRead(env, s[4], d.subscribed, d.success, now, s[5]);
    WokenRead(env, s[5], d.woken, d.status, now, s[6]);
    WentOn(s[4], s[5], s[6], d.handle, WakingUp, d.handle, Active,
           [Sent(Request(s[4].reqId, Wake, env.wakeup)), Sent(Ack(5044, 0, []))], [Subscribed(d.success)],
           [Sent(Ack(5044, 0, []))], [Woken(d.status)]);
  }

  /** The frames the client sends on the way, with the ids of its two requests. */
  function HostSends(env: Env, id: nat, next: nat): seq<Entry> {
    [Sent(Ack(5024, 0, HOST_INFO)), Sent(Ack(5050, 0, [])), Sent(HostCapabilities),
     Sent(Request(id, Subscribe, env.subscribe)), Sent(Request(next, Wake, env.wakeup)),
     Sent(Ack(5044, 0, [])), Sent(Ack(5044, 0, []))]
  }

  lemma SessionRuns(env: Env, d: Device, now: nat, s: seq<State>)
    requires AllAccepted(env) && Cooperates(env, d) && Stages(env, d, now, s) && Idle(s[0], s[0].handle, Registering)
    ensures Went(s[0], s[6], d.handle, Active, HostSends(env, s[0].reqId, s[4].reqId),
                 [Registered(d.handle), HandshakeComplete, Subscribed(d.success), Woken(d.status)])
  {
    Opening(env, d, now, s);
    Exchange(env, d, now, s);
    Waking(env, d, now, s);
    PartsJoin(s[0], s[2], s[4], s[6], d, env, s[0].reqId, s[4].reqId);
  }

  lemma PartsJoin(st: State, a: State, b: State, c: State, d: Device, env: Env, id: nat, next: nat)
    requires Went(st, a, d.handle, WaitCapabilities, [] + [Sent(Ack(5024, 0, HOST_INFO))], [Registered(d.handle)] + [])
    requires Went(a, b, d.handle, Subscribing,
                  [Sent(Ack(5050, 0, [])), Sent(HostCapabilities)] + [Sent(Request(id, Subscribe, env.subscribe))],
                  [] + [HandshakeComplete])
    requires Went(b, c, d.handle, Active,
                  [Sent(Request(next, Wake, env.wakeup)), Sent(Ack(5044, 0, []))] + [Sent(Ack(5044, 0, []))],
                  [Subscribed(d.success)] + [Woken(d.status)])
    ensures Went(st, c, d.handle, Active, HostSends(env, id, next),
                 [Registered(d.handle), HandshakeComplete, Subscribed(d.success), Woken(d.status)])
  {}

  lemma SecondId(env: Env, d: Device, now: nat, s: seq<State>)
    requires AllAccepted(env) && Cooperates(env, d) && Stages(env, d, now, s) && Idle(s[0], s[0].handle, Registering)
    ensures s[4].reqId == NextId(s[0].reqId)
  {
    Opening(env, d, now, s);
    assert Chunks(d)[2] == ChunkWith(d.handle, 5050, d.capabilities);
    assert Chunks(d)[3] == ChunkWith(d.handle, 5000, d.ack);
    CapabilitiesRead(env, s[2], d.capabilities, now, s[3]);
    AckTakesId(env, s[3], d.ack, now, s[4]);
  }

  /**
    From any session with nothing buffered or queued: the register command, then a device that cooperates, one message
    a poll. The session ends active on the handle granted, having sent the host's information, an acknowledgment of the
    capabilities, the host's own, the two requests and two more acknowledgments, and reported four events.
   */
  lemma SessionActivates(env: Env, before: seq<Op>, d: Device, now: nat)
    requires AllAccepted(env) && Cooperates(env, d)
    requires Run(env, before).buf == [] && Run(env, before).pending == None
    ensures var st := Run(env, before);
      Went(st, StageAt(env, before, d, 6, now), d.handle, Active, HostSends(env, st.reqId, NextId(st.reqId)),
           [Registered(d.handle), HandshakeComplete, Subscribed(d.success), Woken(d.status)])
  {
    var s := StagesAre(env, before, d, now);
    Started(env, before, d, now);
    SessionRuns(env, d, now, s);
    SecondId(env, d, now, s);
  }
}
