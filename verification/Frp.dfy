/** The relay device itself, step for step as the model says, and the acceptor thread's own loop. */
module Frp {
  import opened Wrappers
  import opened Bytes
  import opened FrpModel
  import C = ClientModel
  import H = HandOff

  // ----- The acceptor thread -----

  function Successes(attempts: seq<bool>): nat {
    if attempts == [] then 0
    else Successes(attempts[..|attempts| - 1]) + (if attempts[|attempts| - 1] then 1 else 0)
  }

  lemma OneMoreStep(c: Channels, steps: seq<AcceptorStep>, a: AcceptorStep)
    ensures Acceptor(c, steps + [a]) == Step(Acceptor(c, steps), a)
  {
    assert (steps + [a])[..|steps|] == steps;
  }

  /**
    The thread on its own, with the requests already queued and the outcomes of its attempts given: every request
    but the one it is still working on yields one connection, whatever fails in between, and each move is a step.
   */
  method Accept(c0: Channels, attempts: seq<bool>) returns (c: Channels, ghost steps: seq<AcceptorStep>)
    requires c0.worker == Idle
    ensures c == Acceptor(c0, steps)
    ensures var yielded := c.made - c0.made; var n := Successes(attempts);
      && yielded == (if n < c0.requests then n else c0.requests)
      && |c.queue| == |c0.queue| + yielded
      && c.requests + yielded + (if c.worker == Working then 1 else 0) == c0.requests
      && (c.worker == Working <==> n < c0.requests)
      && c.worker != Gone
  {
    c, steps := c0, [];
    var i := 0;
    assert attempts[..0] == [];
    while c.requests > 0
      invariant i <= |attempts| && c == Acceptor(c0, steps) && c.worker == Idle
      invariant c.made >= c0.made && |c.queue| == |c0.queue| + c.made - c0.made
      invariant c.requests + c.made - c0.made == c0.requests
      invariant c.made - c0.made == Successes(attempts[..i])
      invariant Successes(attempts[..i]) <= Successes(attempts)
    {
      OneMoreStep(c0, steps, Take);
      c, steps := Step(c, Take), steps + [Take];
      ghost var taken := c;
      while c.worker == Working
        invariant i <= |attempts| && c == Acceptor(c0, steps)
        invariant c == taken && Successes(attempts[..i]) == c.made - c0.made
        invariant taken.worker == Working
        decreases |attempts| - i
      {
        if i == |attempts| {
          assert attempts[..i] == attempts;
          return;
        }
        var a := Establish(attempts[i]);
        OneMoreStep(c0, steps, a);
        assert attempts[..i + 1][..i] == attempts[..i];
        c, steps, i := Step(c, a), steps + [a], i + 1;
        if a.ok {
          break;
        }
      }
      SuccessesGrow(attempts, i);
    }
    if c0.requests > 0 {
      SuccessesGrow(attempts, i);
    }
  }

  lemma {:induction false} SuccessesGrow(attempts: seq<bool>, i: nat)
    requires i <= |attempts|
    ensures Successes(attempts[..i]) <= Successes(attempts)
    decreases |attempts| - i
  {
    if i == |attempts| {
      assert attempts[..i] == attempts;
    } else {
      SuccessesGrow(attempts, i + 1);
      assert attempts[..i + 1][..i] == attempts[..i];
    }
  }

  // ----- The device's side of the channels and of its connections -----

  /** The two channels and the peers; the acceptor runs whenever the device is about to use a channel. */
  class Hub {
    const env: Outside
    var ch: Channels
    var moments: nat
    var sends: nat

    constructor (env: Outside)
      ensures this.env == env && ch == Channels(0, Idle, [], 0) && moments == 0 && sends == 0
    {
      this.env := env;
      ch := Channels(0, Idle, [], 0);
      moments, sends := 0, 0;
    }

    method Interleave()
      modifies this`ch, this`moments
      ensures ch == Acceptor(old(ch), env.between(old(moments))) && moments == old(moments) + 1
    {
      var steps := env.between(moments);
      for i := 0 to |steps|
        invariant ch == Acceptor(old(ch), steps[..i]) && moments == old(moments)
      {
        assert steps[..i + 1][..i] == steps[..i];
        ch := Step(ch, steps[i]);
      }
      assert steps[..|steps|] == steps;
      moments := moments + 1;
    }

    /** Send a request, unless the other end is gone. */
    method Request() returns (ok: bool)
      modifies this`ch, this`moments
      ensures var c := Acceptor(old(ch), env.between(old(moments)));
        && ok == (c.worker != Gone)
        && ch == if ok then c.(requests := c.requests + 1) else c
      ensures moments == old(moments) + 1
    {
      Interleave();
      ok := ch.worker != Gone;
      if ok {
        ch := ch.(requests := ch.requests + 1);
      }
    }

    /** Receive a connection, if one is waiting. */
    method TryReceive() returns (r: Option<nat>)
      modifies this`ch, this`moments
      ensures var c := Acceptor(old(ch), env.between(old(moments)));
        && r == (if c.queue == [] then None else Some(c.queue[0]))
        && ch == if r == None then c else c.(queue := c.queue[1..])
      ensures moments == old(moments) + 1
    {
      Interleave();
      if ch.queue == [] {
        return None;
      }
      r := Some(ch.queue[0]);
      ch := ch.(queue := ch.queue[1..]);
    }

    method Send() returns (r: SendOutcome)
      modifies this`sends
      ensures r == env.outcome(old(sends)) && sends == old(sends) + 1
    {
      r := env.outcome(sends);
      sends := sends + 1;
    }
  }

  class FrpDevice {
    const hub: Hub
    var conn: Option<nat>
    var pending: bool
    var telemetry: Option<Envelope>
    var name: string
    var shotNumber: nat
    ghost var lines: seq<Line>
    ghost var ops: seq<Op>

    ghost function View(): World
      reads this, hub
    {
      World(conn, pending, telemetry, name, shotNumber, hub.ch, hub.moments, hub.sends, lines)
    }

    /** Between calls the device is where the calls so far have taken it. */
    ghost predicate Valid()
      reads this, hub
    {
      View() == Run(hub.env, ops)
    }

    constructor (env: Outside)
      ensures Valid() && ops == [] && hub.env == env && fresh(hub)
      ensures H.OneConnection(View())
    {
      hub := new Hub(env);
      conn, pending, telemetry := None, false, None;
      name, shotNumber, lines, ops := "", 0, [], [];
      new;
      AskForConnection();
      H.RunSettled(env, ops);
    }

    method AskForConnection()
      modifies this`pending, hub
      ensures View() == RequestConnection(hub.env, old(View()))
    {
      if !pending {
        pending := hub.Request();
      }
    }

    method Drop()
      modifies this`conn, this`pending, this`lines, hub
      ensures View() == DropConnection(hub.env, old(View()))
    {
      conn := None;
      lines := CloseLast(lines);
      AskForConnection();
    }

    method Send(e: Envelope) returns (r: Result<(), FrpError>)
      modifies this`conn, this`pending, this`lines, hub
      ensures (View(), r) == SendEnvelope(hub.env, old(View()), e)
    {
      if conn == None {
        return Ok(());
      }
      var outcome := hub.Send();
      match outcome {
        case Delivered =>
          lines := Heard(lines, e);
          r := Ok(());
        case PeerClosed =>
          Drop();
          r := Ok(());
        case Broken =>
          lines := Spoiled(lines);
          r := Err(SendFailed);
      }
    }

    method Poll() returns (r: Result<bool, FrpError>)
      requires Valid()
      modifies this, hub
      ensures Valid() && ops == old(ops) + [Op.Poll] && (View(), r) == PollConnection(hub.env, old(View()))
      ensures H.OneConnection(View())
    {
      H.Called(hub.env, ops, Op.Poll);
      r := Ok(false);
      if conn == None {
        r := Adopt();
      }
      ops := ops + [Op.Poll];
    }

    /** Take over a waiting connection, if there is one. */
    method Adopt() returns (r: Result<bool, FrpError>)
      requires conn == None
      modifies this`conn, this`pending, this`lines, hub
      ensures (View(), r) == PollConnection(hub.env, old(View()))
    {
      var c := hub.TryReceive();
      if c == None {
        return Ok(false);
      }
      pending := false;
      conn := c;
      lines := lines + [Line(c.value, [], true, false)];
      if telemetry.Some? {
        var sent := Send(telemetry.value);
        if sent.Err? {
          return Err(SendFailed);
        }
      }
      r := Ok(true);
    }

    method Check(inbox: Inbox) returns (command: Option<seq<Byte>>)
      requires Valid()
      modifies this`conn, this`pending, this`lines, this`ops, hub
      ensures Valid() && ops == old(ops) + [Op.Check(inbox)]
      ensures (View(), command) == CheckController(hub.env, old(View()), inbox)
      ensures H.OneConnection(View())
    {
      H.Called(hub.env, ops, Op.Check(inbox));
      command := None;
      if conn.Some? {
        match inbox {
          case Silent =>
          case Message(c) => command := c;
          case Failing => Drop();
        }
      }
      ops := ops + [Op.Check(inbox)];
    }

    method SetName(name: string)
      requires Valid()
      modifies this`name, this`ops
      ensures Valid() && ops == old(ops) + [Op.SetName(name)] && View() == Rename(old(View()), name)
    {
      H.Called(hub.env, ops, Op.SetName(name));
      this.name := name;
      ops := ops + [Op.SetName(name)];
    }

    method SendDeviceInfo() returns (r: Result<(), FrpError>)
      requires Valid()
      modifies this, hub
      ensures Valid() && ops == old(ops) + [Op.SendDeviceInfo] && (View(), r) == SendReady(hub.env, old(View()), true)
      ensures H.OneConnection(View())
    {
      H.Called(hub.env, ops, Op.SendDeviceInfo);
      r := AnnounceReady(true);
      ops := ops + [Op.SendDeviceInfo];
    }

    method AnnounceReady(ready: bool) returns (r: Result<(), FrpError>)
      modifies this`telemetry, this`conn, this`pending, this`lines, hub
      ensures (View(), r) == SendReady(hub.env, old(View()), ready)
    {
      var t := Telemetry(name, ready);
      telemetry := Some(t);
      r := Send(t);
    }

    method SendAll(events: seq<FrpEvent>) returns (r: Result<(), FrpError>)
      modifies this`conn, this`pending, this`lines, hub
      ensures (View(), r) == SendEvents(hub.env, old(View()), events)
    {
      assert events[0..] == events;
      for i := 0 to |events|
        invariant SendEvents(hub.env, View(), events[i..]) == SendEvents(hub.env, old(View()), events)
      {
        if conn == None {
          return Ok(());
        }
        assert events[i..][1..] == events[i + 1..];
        r := Send(Envelope(name, events[i]));
        if r.Err? {
          return;
        }
      }
      r := Ok(());
    }

    /** After every event there is one connection at most, and one coming if there is none and the acceptor lives. */
    method Handle(event: C.Event, uuid: string) returns (r: Result<(), FrpError>)
      requires Valid()
      modifies this, hub
      ensures Valid() && ops == old(ops) + [Op.Handle(event, uuid)]
      ensures (View(), r) == HandleEvent(hub.env, old(View()), event, uuid)
      ensures H.OneConnection(View())
    {
      H.Called(hub.env, ops, Op.Handle(event, uuid));
      match event {
        case Ready => r := AnnounceReady(true);
        case StateChanged(_) => r := AnnounceReady(false);
        case Shot(shot) => r := SendShot(shot, uuid);
        case _ => r := Ok(());
      }
      ops := ops + [Op.Handle(event, uuid)];
    }

    method SendShot(shot: C.ShotData, uuid: string) returns (r: Result<(), FrpError>)
      modifies this`telemetry, this`shotNumber, this`conn, this`pending, this`lines, hub
      ensures (View(), r) == HandleEvent(hub.env, old(View()), C.Shot(shot), uuid)
    {
      r := AnnounceReady(false);
      if r.Err? {
        return;
      }
      shotNumber := (shotNumber + 1) % 0x1_0000_0000;
      var key := ShotKey(uuid, shotNumber);
      var events := [ShotTrigger(key)];
      if shot.ball.Some? {
        events := events + [BallFlight(key, shot.ball.value)];
      }
      if shot.club.Some? {
        events := events + [ClubPath(key, shot.club.value)];
      }
      events := events + [ShotFinished(key)];
      assert events == ShotEvents(key, shot);
      r := SendAll(events);
    }
  }
}
