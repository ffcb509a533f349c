/** The client itself: an object that updates its fields and writes to its link, step for step as the model says. */
module Client {
  import opened Wrappers
  import opened Bytes
  import opened Gfdi
  import opened Multilink
  import opened Shots
  import opened ClientModel
  import opened StreamBuffers
  import opened Handshake
  import opened Ledger
  import opened Accounting

  /** The write side of the transport; `accepts` says which attempts succeed. */
  class Link {
    const accepts: nat -> bool
    var attempts: nat
    var written: seq<seq<Byte>>

    constructor (accepts: nat -> bool)
      ensures this.accepts == accepts && attempts == 0 && written == []
    {
      this.accepts := accepts;
      attempts := 0;
      written := [];
    }

    method Write(chunk: seq<Byte>) returns (ok: bool)
      modifies this
      ensures ok == accepts(old(attempts)) && attempts == old(attempts) + 1
      ensures written == if ok then old(written) + [chunk] else old(written)
    {
      ok := accepts(attempts);
      attempts := attempts + 1;
      if ok {
        written := written + [chunk];
      }
    }
  }

  /** What one more call, from `st` to `s`, leaves true of a session. */
  lemma Called(env: Env, ops: seq<Op>, op: Op, st: State, s: State)
    requires st == Run(env, ops) && s == Apply(env, st, op)
    ensures Run(env, ops + [op]) == s
    ensures s.phase == Active ==> ThroughHandshake(s.log)
    ensures Tally(s.log).acks == Tally(s.log).owed && s.recent == Cache(Tally(s.log).shots.arrivals)
    ensures s.pending == None || s.pending == Some(Ready)
  {
    RunPush(env, ops, op);
    RunSecured(env, ops + [op]);
    RunBalanced(env, ops + [op]);
    BalancedMeans(env, s);
  }

  lemma QueuedIsReady(env: Env, ops: seq<Op>)
    ensures Run(env, ops).pending == None || Run(env, ops).pending == Some(Ready)
  {
    RunBalanced(env, ops);
    BalancedMeans(env, Run(env, ops));
  }

  class Client {
    const env: Env
    const mtu: nat
    const link: Link
    const streamBuf: StreamBuffer
    var handle: Byte
    var phase: Phase
    var reqId: nat
    var recent: seq<Arrival>
    var lastState: Option<DeviceState>
    var pending: Option<Event>
    ghost var log: seq<Entry>
    ghost var ops: seq<Op>

    ghost function View(): State
      reads this, link, streamBuf
    {
      State(handle, phase, streamBuf.buf, reqId, recent, lastState, pending, link.attempts, link.written, log)
    }

    ghost predicate Linked()
      reads this, link, streamBuf
    {
      streamBuf.Valid() && link.accepts == env.accepts && Cuts(env, mtu)
    }

    /** Between calls the client is where the calls so far have taken the session. */
    ghost predicate Valid()
      reads this, link, streamBuf
    {
      Linked() && View() == Run(env, ops)
    }

    constructor (decode: seq<Byte> -> Option<EnvelopeEvent>, subscribe: seq<Byte>, wakeup: seq<Byte>, mtu: nat,
                 accepts: nat -> bool)
      ensures Valid() && ops == [] && env == EnvFor(decode, subscribe, wakeup, mtu, accepts)
      ensures fresh(link) && fresh(streamBuf)
    {
      env := EnvFor(decode, subscribe, wakeup, mtu, accepts);
      this.mtu := mtu;
      link := new Link(accepts);
      streamBuf := new StreamBuffer();
      handle, phase, reqId := 0, Registering, 1;
      recent, lastState, pending := [], None, None;
      log, ops := [], [];
    }

    /** Write chunks until one fails. */
    method WriteAll(chunks: seq<seq<Byte>>) returns (ok: bool)
      requires Linked()
      modifies link
      ensures Linked()
      ensures var g := Granted(env.accepts, old(link.attempts), |chunks|);
        && ok == (g == |chunks|)
        && link.attempts == old(link.attempts) + (if ok then g else g + 1)
        && link.written == old(link.written) + chunks[..g]
    {
      ghost var first := link.attempts;
      for i := 0 to |chunks|
        invariant Linked()
        invariant link.attempts == first + i && link.written == old(link.written) + chunks[..i]
        invariant Granted(env.accepts, first, |chunks|) == i + Granted(env.accepts, first + i, |chunks| - i)
      {
        assert chunks[..i + 1] == chunks[..i] + [chunks[i]];
        ok := link.Write(chunks[i]);
        if !ok {
          return;
        }
      }
      ok := true;
    }

    method WriteFrame(out: Out, chunks: seq<seq<Byte>>) returns (ok: bool)
      requires Linked()
      modifies this`log, link
      ensures Linked() && (View(), ok) == Transmit(env, old(View()), out, chunks)
    {
      ok := WriteAll(chunks);
      assert chunks[..|chunks|] == chunks;
      log := log + [Tried(out, ok)];
    }

    method SendFrame(out: Out) returns (ok: bool)
      requires Linked()
      modifies this`log, link
      ensures Linked() && (View(), ok) == ClientModel.SendFrame(env, old(View()), out)
    {
      ok := WriteFrame(out, ChunksFor(mtu, handle, out));
    }

    method SendAck(t: Word, payload: seq<Byte>) returns (ok: bool)
      requires Linked()
      modifies this`log, link
      ensures Linked() && (View(), ok) == ClientModel.SendAck(env, old(View()), t, payload)
    {
      ok := SendFrame(Ack(t, 0, payload));
    }

    /** The id a request takes is used up even if the request cannot be written. */
    method SendRequest(kind: RequestKind, pb: seq<Byte>) returns (ok: bool)
      requires Linked()
      modifies this`reqId, this`log, link
      ensures Linked() && (View(), ok) == ClientModel.SendRequest(env, old(View()), kind, pb)
    {
      var id := reqId;
      reqId := (reqId + 1) % 0x1_0000;
      assert View() == NextReqId(old(View()));
      ok := SendFrame(Request(id, kind, pb));
    }

    method SendEnvironment(pb: seq<Byte>) returns (r: Result<(), Error>)
      requires Valid()
      modifies this`reqId, this`log, this`ops, link
      ensures Valid() && ops == old(ops) + [SetEnvironment(pb)]
      ensures (View(), r) == ClientModel.SendEnvironment(env, old(View()), pb)
      ensures Tally(log).acks == Tally(log).owed
    {
      var ok := SendRequest(Environment, pb);
      r := if ok then Ok(()) else Err(Transport);
      Called(env, ops, SetEnvironment(pb), old(View()), View());
      ops := ops + [SetEnvironment(pb)];
    }

    method Start(ok: bool) returns (r: Result<(), Error>)
      requires Valid()
      modifies this`phase, this`ops
      ensures Valid() && ops == old(ops) + [ClientModel.Start(ok)]
      ensures (View(), r) == StartSession(old(View()), ok)
    {
      r := Err(Transport);
      if ok {
        phase := Registering;
        r := Ok(());
      }
      RunPush(env, ops, ClientModel.Start(ok));
      ops := ops + [ClientModel.Start(ok)];
    }

    method HandleDeviceInfo(payload: seq<Byte>) returns (r: Outcome)
      requires Linked()
      modifies this`phase, this`log, link
      ensures Linked() && (View(), r) == ClientModel.HandleDeviceInfo(env, old(View()), payload)
    {
      if |payload| < DEVICE_INFO_MIN {
        return Err(FrameTooShort);
      }
      var ok := SendAck(MSG_DEVICE_INFO, HOST_INFO);
      if !ok {
        return Err(Transport);
      }
      phase := WaitCapabilities;
      r := Ok(None);
    }

    method HandleConfiguration() returns (r: Outcome)
      requires Linked()
      modifies this`phase, this`log, link
      ensures Linked() && (View(), r) == ClientModel.HandleConfiguration(env, old(View()))
    {
      var ok := SendAck(MSG_CONFIGURATION, []);
      if !ok {
        return Err(Transport);
      }
      ok := SendFrame(HostCapabilities);
      if !ok {
        return Err(Transport);
      }
      phase := WaitCapabilitiesAck;
      r := Ok(None);
    }

    method HandleAck(payload: seq<Byte>) returns (r: Outcome)
      requires Linked()
      modifies this`phase, this`reqId, this`log, link
      ensures Linked() && (View(), r) == ClientModel.HandleAck(env, old(View()), payload)
    {
      if |payload| < 3 {
        return Ok(None);
      }
      var orig, status := FromLe(payload[0], payload[1]), payload[2];
      if status != 0 {
        return Err(Nak(orig, status));
      }
      log := log + [GotAckOf(orig)];
      if orig == MSG_CONFIGURATION && phase == WaitCapabilitiesAck {
        phase := Subscribing;
        var ok := SendRequest(Subscribe, env.subscribe);
        return if ok then Ok(Some(HandshakeComplete)) else Err(Transport);
      }
      r := Ok(None);
    }

    method OnSubscribeResult(success: bool) returns (r: Outcome)
      requires Linked()
      modifies this`phase, this`reqId, this`log, link
      ensures Linked() && (View(), r) == ClientModel.OnSubscribeResult(env, old(View()), success)
    {
      if phase == Subscribing {
        phase := WakingUp;
        var ok := SendRequest(Wake, env.wakeup);
        if !ok {
          return Err(Transport);
        }
      }
      r := Ok(Some(Subscribed(success)));
    }

    method OnWakeResult(status: int) returns (r: Outcome)
      requires Linked()
      modifies this`phase, this`lastState, this`pending
      ensures Linked() && (View(), r) == ClientModel.OnWakeResult(old(View()), status)
    {
      if phase == WakingUp {
        phase := Active;
      }
      if status == 1 {
        lastState := Some(Waiting);
        pending := Some(Ready);
      }
      r := Ok(Some(Woken(status)));
    }

    method OnStateChange(state: DeviceState) returns (r: Outcome)
      requires Linked()
      modifies this`lastState, this`reqId, this`log, link
      ensures Linked() && (View(), r) == ClientModel.OnStateChange(env, old(View()), state)
    {
      var changed := lastState != Some(state);
      lastState := Some(state);
      if !changed {
        return Ok(None);
      }
      if state == Waiting {
        return Ok(Some(Ready));
      }
      if state == Standby && phase == Active {
        var ok := SendRequest(Wake, env.wakeup);
        if !ok {
          return Err(Transport);
        }
      }
      r := Ok(Some(StateChanged(state)));
    }

    method OnShot(shot: ShotData, now: nat) returns (r: Outcome)
      requires Linked()
      modifies this`recent
      ensures Linked() && (View(), r) == ClientModel.OnShot(old(View()), shot, now)
    {
      recent := Prune(recent, now);
      if Knows(recent, shot.shotId) {
        return Ok(None);
      }
      recent := recent + [Arrival(shot.shotId, now)];
      r := Ok(Some(Shot(shot)));
    }

    method HandleProtobuf(payload: seq<Byte>, now: nat) returns (r: Outcome)
      requires Linked()
      modifies this, link
      ensures Linked() && (View(), r) == ClientModel.HandleProtobuf(env, old(View()), payload, now)
      ensures ops == old(ops)
    {
      var envelope := EnvelopeOf(env, payload);
      if envelope.Err? {
        return Err(envelope.error);
      }
      log := log + [GotEnvelope(envelope.value, now, phase, lastState)];
      match envelope.value {
        case SubscribeResult(success) => r := OnSubscribeResult(success);
        case WakeResult(status) => r := OnWakeResult(status);
        case EnvironmentResult(success) => r := Ok(Some(EnvironmentSet(success)));
        case StateChange(state) => r := OnStateChange(state);
        case ShotResult(shot) => r := OnShot(shot, now);
        case ErrorReport(detail) => r := Ok(Some(DeviceError(detail)));
        case _ => r := Ok(None);
      }
    }

    method ProtobufMessage(t: Word, payload: seq<Byte>, now: nat) returns (r: Outcome)
      requires Linked()
      modifies this, link
      ensures Linked() && (View(), r) == ClientModel.ProtobufMessage(env, old(View()), t, payload, now)
      ensures ops == old(ops)
    {
      r := HandleProtobuf(payload, now);
      if r.Err? {
        return;
      }
      var ok := SendAck(t, []);
      if !ok {
        r := Err(Transport);
      }
    }

    method Dispatch(f: GfdiFrame, now: nat) returns (r: Outcome)
      requires Linked()
      modifies this, link
      ensures Linked() && (View(), r) == ClientModel.Dispatch(env, old(View()), f, now)
      ensures ops == old(ops)
    {
      if f.msgType == MSG_DEVICE_INFO {
        r := HandleDeviceInfo(f.payload);
      } else if f.msgType == MSG_CONFIGURATION {
        r := HandleConfiguration();
      } else if f.msgType == MSG_ACK {
        r := HandleAck(f.payload);
      } else if f.msgType == MSG_FIT_DEFINITION || f.msgType == MSG_FIT_DATA {
        var ok := SendAck(f.msgType, [0]);
        r := if ok then Ok(None) else Err(Transport);
      } else if f.msgType == MSG_PROTOBUF_REQUEST || f.msgType == MSG_PROTOBUF_RESPONSE {
        r := ProtobufMessage(f.msgType, f.payload, now);
      } else {
        r := Ok(None);
      }
    }

    method HandleRegisterResponse(chunk: seq<Byte>) returns (r: Outcome)
      requires Linked()
      modifies this`handle, this`phase, streamBuf
      ensures Linked() && (View(), r) == ClientModel.HandleRegisterResponse(old(View()), chunk)
    {
      match ParseRegisterResponse(chunk) {
        case Some((Success, h)) =>
          handle := h;
          phase := WaitDeviceInfo;
          r := Ok(Some(Registered(h)));
        case Some((status, _)) => r := Err(MultiLinkRegister(status.Code()));
        case None =>
          var ok := Feed(chunk);
          r := if ok then Ok(None) else Err(FrameTooShort);
      }
    }

    /** Strip the handle and append the rest to the stream buffer; chunks for other handles are ignored. */
    method Feed(chunk: seq<Byte>) returns (ok: bool)
      requires Linked()
      modifies streamBuf
      ensures Linked() && (View(), ok) == ClientModel.Feed(old(View()), chunk)
    {
      var data := StripHandle(chunk, handle);
      if data == None {
        return true;
      }
      var r := streamBuf.Extend(data.value);
      ok := r.Ok?;
    }

    method NextFrame(now: nat) returns (r: Outcome)
      requires Linked()
      modifies this, link, streamBuf
      ensures Linked() && (View(), r) == ClientModel.NextFrame(env, old(View()), now)
      ensures ops == old(ops)
    {
      var frame := streamBuf.NextFrame();
      if frame == None {
        return Ok(None);
      }
      if frame.value.Err? {
        return Err(frame.value.error);
      }
      var f := frame.value.value;
      log := log + [Got(f.msgType)];
      r := Dispatch(f, now);
      if r.Ok? {
        log := log + [Done(f.msgType)];
      }
    }

    /**
      After every poll: an active client has been through the handshake, every acknowledgment owed has been sent, the
      cache is that of all the shots that ever arrived, and what is queued is a Ready, which the next poll returns.
     */
    method Poll(rd: Read, now: nat) returns (r: Outcome)
      requires Valid()
      modifies this, link, streamBuf
      ensures Valid() && ops == old(ops) + [DoPoll(rd, now)]
      ensures (View(), r) == ClientModel.Poll(env, old(View()), rd, now)
      ensures phase == Active ==> ThroughHandshake(log)
      ensures Tally(log).acks == Tally(log).owed
      ensures recent == Cache(Tally(log).shots.arrivals)
      ensures pending == None || pending == Some(Ready)
      ensures old(pending) != None ==> r == Ok(Some(Ready)) && pending == None
    {
      QueuedIsReady(env, ops);
      if pending.Some? {
        r := Ok(pending);
        log := log + [Emitted(pending.value, true)];
        pending := None;
      } else {
        r := ReadAndHandle(rd, now);
        if r.Ok? && r.value.Some? {
          log := log + [Emitted(r.value.value, false)];
        }
      }
      Called(env, ops, DoPoll(rd, now), old(View()), View());
      ops := ops + [DoPoll(rd, now)];
    }

    method ReadAndHandle(rd: Read, now: nat) returns (r: Outcome)
      requires Linked()
      modifies this, link, streamBuf
      ensures Linked() && (View(), r) == ClientModel.ReadAndHandle(env, old(View()), rd, now)
      ensures ops == old(ops)
    {
      if rd.Failed? {
        return Err(Transport);
      }
      if rd.Chunk? && rd.data != [] {
        if phase == Registering {
          r := HandleRegisterResponse(rd.data);
          return;
        }
        var ok := Feed(rd.data);
        if !ok {
          return Err(FrameTooShort);
        }
      }
      r := NextFrame(now);
    }
  }
}
