/**
  The relay device as functions of its state: the device object, the acceptor thread that makes its connections,
  and the two channels between them. The device's methods touch shared state only where they use a channel, so the
  acceptor is given any number of steps before each such use: `Outside.between` is the schedule, and quantifying over
  it covers every interleaving. `Outside.outcome` says how each send on a connection ends.
 */
module FrpModel {
  import opened Wrappers
  import opened Bytes
  import C = ClientModel

  // ----- What is sent -----

  datatype ShotKey = ShotKey(shotId: string, shotNumber: nat)

  /** Ball and club readings are passed on as they come; their conversion is not part of this model. */
  datatype FrpEvent =
    | DeviceTelemetry(ready: bool)
    | ShotTrigger(key: ShotKey)
    | BallFlight(key: ShotKey, ball: seq<Byte>)
    | ClubPath(key: ShotKey, club: seq<Byte>)
    | ShotFinished(key: ShotKey)

  datatype Envelope = Envelope(device: string, event: FrpEvent)

  // ----- The acceptor thread and the channels -----

  datatype Worker = Idle | Working | Gone

  /** Connections are numbered in the order they are made. */
  datatype Channels = Channels(requests: nat, worker: Worker, queue: seq<nat>, made: nat)

  /** Receive a request; one attempt to establish a connection; or the thread dies. */
  datatype AcceptorStep = Take | Establish(ok: bool) | Crash

  function Step(c: Channels, a: AcceptorStep): Channels {
    match a
    case Take =>
      if c.worker == Idle && c.requests > 0 then c.(requests := c.requests - 1, worker := Working) else c
    case Establish(ok) =>
      if c.worker == Working && ok then c.(worker := Idle, queue := c.queue + [c.made], made := c.made + 1) else c
    case Crash => c.(worker := Gone)
  }

  function Acceptor(c: Channels, steps: seq<AcceptorStep>): Channels {
    if steps == [] then c else Step(Acceptor(c, steps[..|steps| - 1]), steps[|steps| - 1])
  }

  // ----- The device -----

  datatype SendOutcome = Delivered | PeerClosed | Broken

  datatype FrpError = SendFailed

  datatype Outside = Outside(between: nat -> seq<AcceptorStep>, outcome: nat -> SendOutcome)

  /** What one connection got, whether the device still holds it, and whether a send on it failed without closing it. */
  datatype Line = Line(id: nat, got: seq<Envelope>, open: bool, failed: bool)

  datatype World = World(
    conn: Option<nat>,
    pending: bool,
    telemetry: Option<Envelope>,
    name: string,
    shotNumber: nat,
    ch: Channels,
    moments: nat,
    sends: nat,
    lines: seq<Line>)

  function WithLast(lines: seq<Line>, l: Line): seq<Line> {
    if lines == [] then [] else lines[..|lines| - 1] + [l]
  }

  function Heard(lines: seq<Line>, e: Envelope): seq<Line> {
    if lines == [] then [] else
      var l := lines[|lines| - 1];
      WithLast(lines, l.(got := l.got + [e]))
  }

  function CloseLast(lines: seq<Line>): seq<Line> {
    if lines == [] then [] else WithLast(lines, lines[|lines| - 1].(open := false))
  }

  function Spoiled(lines: seq<Line>): seq<Line> {
    if lines == [] then [] else WithLast(lines, lines[|lines| - 1].(failed := true))
  }

  /** The acceptor's turn, just before the device uses a channel. */
  function Between(env: Outside, w: World): World {
    w.(ch := Acceptor(w.ch, env.between(w.moments)), moments := w.moments + 1)
  }

  function RequestConnection(env: Outside, w: World): World {
    if w.pending then w
    else
      var v := Between(env, w);
      if v.ch.worker == Gone then v
      else v.(pending := true, ch := v.ch.(requests := v.ch.requests + 1))
  }

  function DropConnection(env: Outside, w: World): World {
    RequestConnection(env, w.(conn := None, lines := CloseLast(w.lines)))
  }

  function SendEnvelope(env: Outside, w: World, e: Envelope): (World, Result<(), FrpError>) {
    if w.conn == None then (w, Ok(()))
    else
      var v := w.(sends := w.sends + 1);
      match env.outcome(w.sends)
      case Delivered => (v.(lines := Heard(w.lines, e)), Ok(()))
      case PeerClosed => (DropConnection(env, v), Ok(()))
      case Broken => (v.(lines := Spoiled(w.lines)), Err(SendFailed))
  }

  function Adopt(w: World): World
    requires w.ch.queue != []
  {
    w.(conn := Some(w.ch.queue[0]), pending := false, ch := w.ch.(queue := w.ch.queue[1..]),
       lines := w.lines + [Line(w.ch.queue[0], [], true, false)])
  }

  function PollConnection(env: Outside, w: World): (World, Result<bool, FrpError>) {
    if w.conn.Some? then (w, Ok(false))
    else
      var v := Between(env, w);
      if v.ch.queue == [] then (v, Ok(false))
      else
        var a := Adopt(v);
        match a.telemetry
        case None => (a, Ok(true))
        case Some(t) =>
          var (s, r) := SendEnvelope(env, a, t);
          (s, if r.Ok? then Ok(true) else Err(SendFailed))
  }

  /** What a connection hands the device when asked: nothing, a message that may hold a command, or an error. */
  datatype Inbox = Silent | Message(command: Option<seq<Byte>>) | Failing

  function CheckController(env: Outside, w: World, inbox: Inbox): (World, Option<seq<Byte>>) {
    if w.conn == None then (w, None)
    else
      match inbox
      case Silent => (w, None)
      case Message(command) => (w, command)
      case Failing => (DropConnection(env, w), None)
  }

  function Telemetry(name: string, ready: bool): Envelope { Envelope(name, DeviceTelemetry(ready)) }

  function SendReady(env: Outside, w: World, ready: bool): (World, Result<(), FrpError>) {
    var t := Telemetry(w.name, ready);
    SendEnvelope(env, w.(telemetry := Some(t)), t)
  }

  /** Send until the connection is gone or a send fails. */
  function SendEvents(env: Outside, w: World, events: seq<FrpEvent>): (World, Result<(), FrpError>)
    decreases |events|
  {
    if events == [] || w.conn == None then (w, Ok(()))
    else
      var (v, r) := SendEnvelope(env, w, Envelope(w.name, events[0]));
      if r.Err? then (v, r) else SendEvents(env, v, events[1..])
  }

  function ShotEvents(key: ShotKey, shot: C.ShotData): seq<FrpEvent> {
    [ShotTrigger(key)]
    + (if shot.ball.Some? then [BallFlight(key, shot.ball.value)] else [])
    + (if shot.club.Some? then [ClubPath(key, shot.club.value)] else [])
    + [ShotFinished(key)]
  }

  function NextShot(n: nat): nat { (n + 1) % 0x1_0000_0000 }

  function HandleEvent(env: Outside, w: World, event: C.Event, uuid: string): (World, Result<(), FrpError>) {
    match event
    case Ready => SendReady(env, w, true)
    case StateChanged(_) => SendReady(env, w, false)
    case Shot(shot) =>
      var (v, r) := SendReady(env, w, false);
      if r.Err? then (v, r)
      else
        var u := v.(shotNumber := NextShot(v.shotNumber));
        SendEvents(env, u, ShotEvents(ShotKey(uuid, u.shotNumber), shot))
    case _ => (w, Ok(()))
  }

  function Rename(w: World, name: string): World { w.(name := name) }

  function Background(w: World, steps: seq<AcceptorStep>): World { w.(ch := Acceptor(w.ch, steps)) }

  function Spawn(env: Outside): World {
    RequestConnection(env, World(None, false, None, "", 0, Channels(0, Idle, [], 0), 0, 0, []))
  }

  // ----- Runs -----

  /** What the device's owner can call, and the acceptor running while nothing is called. */
  datatype Op =
    | Poll
    | Check(inbox: Inbox)
    | Handle(event: C.Event, uuid: string)
    | SendDeviceInfo
    | SetName(name: string)
    | Wait(steps: seq<AcceptorStep>)

  function Apply(env: Outside, w: World, op: Op): World {
    match op
    case Poll => PollConnection(env, w).0
    case Check(inbox) => CheckController(env, w, inbox).0
    case Handle(event, uuid) => HandleEvent(env, w, event, uuid).0
    case SendDeviceInfo => SendReady(env, w, true).0
    case SetName(name) => Rename(w, name)
    case Wait(steps) => Background(w, steps)
  }

  function Run(env: Outside, ops: seq<Op>): World {
    if ops == [] then Spawn(env) else Apply(env, Run(env, ops[..|ops| - 1]), ops[|ops| - 1])
  }
}
