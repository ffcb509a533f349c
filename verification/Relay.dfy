/** What each call on the relay device adds to what its controller hears, envelope by envelope, and what it returns. */
module Relay {
  import opened Wrappers
  import opened Bytes
  import opened FrpModel
  import opened HandOff
  import C = ClientModel

  // ----- What is sent -----

  /**
    What one shot comes to, in place: not ready, the trigger, the ball's flight if the shot has one, the club's path if
    it has one, and the end, all but the first under one key.
   */
  predicate IsShot(news: seq<Envelope>, name: string, key: ShotKey, shot: C.ShotData) {
    && |news| == 3 + (if shot.ball.Some? then 1 else 0) + (if shot.club.Some? then 1 else 0)
    && news[0] == Envelope(name, DeviceTelemetry(false))
    && news[1] == Envelope(name, ShotTrigger(key))
    && (shot.ball.Some? ==> news[2] == Envelope(name, BallFlight(key, shot.ball.value)))
    && (shot.club.Some? ==> news[|news| - 2] == Envelope(name, ClubPath(key, shot.club.value)))
    && news[|news| - 1] == Envelope(name, ShotFinished(key))
  }

  /**
    From `w` to `v` the adopted connection heard `news`, unless a send on it failed: all of it if it is open at the end,
    a proper beginning if it closed. No other connection heard anything.
   */
  predicate Hearing(w: World, v: World, news: seq<Envelope>) {
    && 0 < |w.lines| == |v.lines|
    && var n := |w.lines| - 1;
    && v.lines[..n] == w.lines[..n]
    && (!v.lines[n].failed ==>
          && w.lines[n].got <= v.lines[n].got <= w.lines[n].got + news
          && (v.lines[n].open <==> v.lines[n].got == w.lines[n].got + news))
  }

  lemma EventHearing(env: Outside, ops: seq<Op>, event: C.Event, uuid: string, news: seq<Envelope>)
    requires Run(env, ops).conn.Some? && news == Due(Run(env, ops), event, uuid)
    ensures Hearing(Run(env, ops), Run(env, ops + [Handle(event, uuid)]), news)
  {
    Called(env, ops, Handle(event, uuid));
    RunSettled(env, ops);
    HandleHeard(env, Run(env, ops), event, uuid);
  }

  lemma DueShot(w: World, shot: C.ShotData, uuid: string, number: nat)
    requires number == NextShot(w.shotNumber)
    ensures IsShot(Due(w, C.Shot(shot), uuid), w.name, ShotKey(uuid, number), shot)
  {}

  /** What a shot handled while connected comes to: its number follows the count of the shots announced before. */
  lemma ShotRelayed(env: Outside, ops: seq<Op>, shot: C.ShotData, uuid: string, number: nat)
    returns (news: seq<Envelope>)
    requires Run(env, ops).conn.Some? && number == (Run(env, ops).shotNumber + 1) % 0x1_0000_0000
    ensures IsShot(news, Run(env, ops).name, ShotKey(uuid, number), shot)
    ensures Hearing(Run(env, ops), Run(env, ops + [Handle(C.Shot(shot), uuid)]), news)
  {
    DueShot(Run(env, ops), shot, uuid, number);
    EventHearing(env, ops, C.Shot(shot), uuid, Due(Run(env, ops), C.Shot(shot), uuid));
    news := Due(Run(env, ops), C.Shot(shot), uuid);
  }

  /** A change of readiness: one telemetry, ready exactly if the device is. */
  lemma ReadyRelayed(env: Outside, ops: seq<Op>, event: C.Event, uuid: string)
    requires Run(env, ops).conn.Some? && (event == C.Ready || event.StateChanged?)
    ensures var w := Run(env, ops);
      Hearing(w, Run(env, ops + [Handle(event, uuid)]), [Envelope(w.name, DeviceTelemetry(event == C.Ready))])
  {
    EventHearing(env, ops, event, uuid, Due(Run(env, ops), event, uuid));
  }

  /** The device's information is that it is ready. */
  lemma InfoRelayed(env: Outside, ops: seq<Op>)
    requires Run(env, ops).conn.Some?
    ensures var w := Run(env, ops);
      Hearing(w, Run(env, ops + [SendDeviceInfo]), [Envelope(w.name, DeviceTelemetry(true))])
  {
    Called(env, ops, SendDeviceInfo);
    RunSettled(env, ops);
    ReadyHeard(env, Run(env, ops), true);
  }

  /** No other event is relayed, nor changes anything. */
  lemma OtherEvent(env: Outside, w: World, event: C.Event, uuid: string)
    requires event != C.Ready && !event.StateChanged? && !event.Shot?
    ensures HandleEvent(env, w, event, uuid) == (w, Ok(()))
  {}

  // ----- What is returned -----

  /** A command is returned exactly if the device is connected and the message read holds one, and changes nothing. */
  lemma CommandReturned(env: Outside, w: World, inbox: Inbox, command: seq<Byte>)
    ensures CheckController(env, w, inbox).1 == Some(command) <==> w.conn.Some? && inbox == Message(Some(command))
    ensures w.conn == None || inbox != Failing ==> CheckController(env, w, inbox).0 == w
  {}

  /** A connection that fails when read is closed, and another asked for. */
  lemma FailingDropped(env: Outside, ops: seq<Op>)
    requires Run(env, ops).conn.Some?
    ensures var w, v := Run(env, ops), Run(env, ops + [Check(Failing)]);
      && v.conn == None && |v.lines| == |w.lines| > 0 && !v.lines[|v.lines| - 1].open
      && v.lines[|v.lines| - 1].got == w.lines[|w.lines| - 1].got && (Alive(v) ==> v.pending)
  {
    Called(env, ops, Check(Failing));
    RunSettled(env, ops);
    DropSettles(env, Run(env, ops));
  }

  /** None of the sends from `a` up to `b` failed without closing the connection. */
  predicate NoneBroken(env: Outside, a: nat, b: nat) {
    forall k :: a <= k < b ==> env.outcome(k) != Broken
  }

  lemma SendResult(env: Outside, w: World, e: Envelope)
    ensures var (v, r) := SendEnvelope(env, w, e);
      w.sends <= v.sends && (r.Ok? <==> NoneBroken(env, w.sends, v.sends))
  {}

  lemma {:induction false} EventsResult(env: Outside, w: World, events: seq<FrpEvent>)
    ensures var (v, r) := SendEvents(env, w, events);
      w.sends <= v.sends && (r.Ok? <==> NoneBroken(env, w.sends, v.sends))
    decreases |events|
  {
    if events != [] && w.conn.Some? {
      var e := Envelope(w.name, events[0]);
      SendResult(env, w, e);
      EventsResult(env, SendEnvelope(env, w, e).0, events[1..]);
    }
  }

  /** Handling an event is an error exactly if one of its sends failed without closing the connection. */
  lemma HandleResult(env: Outside, w: World, event: C.Event, uuid: string)
    ensures var (v, r) := HandleEvent(env, w, event, uuid);
      w.sends <= v.sends && (r.Ok? <==> NoneBroken(env, w.sends, v.sends))
  {
    var up, down := Telemetry(w.name, true), Telemetry(w.name, false);
    match event {
      case Ready => SendResult(env, w.(telemetry := Some(up)), up);
      case StateChanged(_) => SendResult(env, w.(telemetry := Some(down)), down);
      case Shot(shot) =>
        SendResult(env, w.(telemetry := Some(down)), down);
        var v := SendReady(env, w, false).0;
        var u := v.(shotNumber := NextShot(v.shotNumber));
        EventsResult(env, u, ShotEvents(ShotKey(uuid, u.shotNumber), shot));
      case _ =>
    }
  }

  /** Polling says whether a connection was adopted, or that its greeting failed. */
  lemma PollResult(env: Outside, ops: seq<Op>)
    ensures var w := Run(env, ops); var (v, r) := PollConnection(env, w);
      && (r == Ok(false) <==> |v.lines| == |w.lines|)
      && (r.Err? <==> |v.lines| > |w.lines| && !NoneBroken(env, w.sends, v.sends))
  {
    var w := Run(env, ops);
    RunSettled(env, ops);
    if w.conn == None {
      var v := Between(env, w);
      BetweenKeeps(env, w);
      if v.ch.queue != [] {
        AdoptSettles(v);
        if v.telemetry.Some? {
          SendHeard(env, Adopt(v), v.telemetry.value);
          SendResult(env, Adopt(v), v.telemetry.value);
        }
      }
    }
  }
}
