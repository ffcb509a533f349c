/**
  The hand-off of connections from the acceptor thread to the device, over every interleaving of the two, and what a
  connected controller gets to hear.
 */
module HandOff {
  import opened Wrappers
  import opened Bytes
  import opened FrpModel
  import C = ClientModel

  // ----- One token -----

  predicate Alive(w: World) { w.ch.worker != Gone }

  /** Requests on their way, the acceptor at work, connections on their way, and the one adopted. */
  function Tokens(w: World): nat {
    w.ch.requests + (if w.ch.worker == Working then 1 else 0) + |w.ch.queue| + (if w.conn.Some? then 1 else 0)
  }

  /** What holds even in the middle of dropping a connection, when the token is in nobody's hands. */
  predicate TokenHeld(w: World) {
    && Tokens(w) <= 1
    && (w.pending ==> w.conn == None)
    && (!w.pending && w.conn == None ==> Tokens(w) == 0)
    && (w.pending && Alive(w) ==> Tokens(w) == 1)
  }

  /** Connections are adopted in the order they were made, none is lost, and only the last one adopted can be open. */
  predicate LinesHeld(w: World) {
    && w.ch.made == |w.lines| + |w.ch.queue|
    && (forall i :: 0 <= i < |w.ch.queue| ==> w.ch.queue[i] == |w.lines| + i)
    && (forall i :: 0 <= i < |w.lines| ==> w.lines[i].id == i && (w.lines[i].open <==> w.conn == Some(i)))
    && (w.conn.Some? ==> w.conn.value + 1 == |w.lines|)
  }

  /** What holds whenever the device is not in the middle of a call. */
  predicate Settled(w: World) {
    TokenHeld(w) && LinesHeld(w) && (Alive(w) ==> (w.pending <==> w.conn == None))
  }

  lemma StepKeeps(w: World, v: World, a: AcceptorStep)
    requires TokenHeld(w) && LinesHeld(w) && v == w.(ch := Step(w.ch, a))
    ensures TokenHeld(v) && LinesHeld(v) && (Alive(v) ==> Alive(w))
  {}

  lemma {:induction false} AcceptorKeeps(w: World, v: World, steps: seq<AcceptorStep>)
    requires TokenHeld(w) && LinesHeld(w) && v == w.(ch := Acceptor(w.ch, steps))
    ensures TokenHeld(v) && LinesHeld(v) && (Alive(v) ==> Alive(w))
    decreases |steps|
  {
    if steps != [] {
      var u := w.(ch := Acceptor(w.ch, steps[..|steps| - 1]));
      AcceptorKeeps(w, u, steps[..|steps| - 1]);
      StepKeeps(u, v, steps[|steps| - 1]);
    }
  }

  lemma BetweenKeeps(env: Outside, w: World)
    requires TokenHeld(w) && LinesHeld(w)
    ensures var v := Between(env, w); TokenHeld(v) && LinesHeld(v) && (Alive(v) ==> Alive(w))
  {
    var steps := env.between(w.moments);
    AcceptorKeeps(w, w.(ch := Acceptor(w.ch, steps)), steps);
  }

  lemma RequestSettles(env: Outside, w: World)
    requires TokenHeld(w) && LinesHeld(w) && w.conn == None
    ensures var v := RequestConnection(env, w);
      && Settled(v) && v.lines == w.lines && v.conn == None && v.telemetry == w.telemetry
      && v.name == w.name && v.shotNumber == w.shotNumber
  {
    BetweenKeeps(env, w);
  }

  lemma DropSettles(env: Outside, w: World)
    requires Settled(w) && w.conn.Some?
    ensures var v := DropConnection(env, w);
      && Settled(v) && v.lines == CloseLast(w.lines) && v.conn == None && v.telemetry == w.telemetry
      && v.name == w.name && v.shotNumber == w.shotNumber
  {
    RequestSettles(env, w.(conn := None, lines := CloseLast(w.lines)));
  }

  // ----- What one call adds to a connection -----

  /**
    `l` becomes `l'` by sending `es`: all of it arrives if the connection stays open, a proper beginning if it does
    not.
   */
  predicate Extends(l: Line, l': Line, es: seq<Envelope>) {
    && l'.id == l.id && (l.failed ==> l'.failed)
    && (!l'.failed ==>
          && l.got <= l'.got <= l.got + es
          && (l'.open <==> l'.got == l.got + es))
  }

  /** Only the last connection hears anything, and it hears `es`; an error means a send on it failed. */
  predicate Hears(w: World, v: World, es: seq<Envelope>, ok: bool) {
    && 0 < |w.lines| == |v.lines| && v.lines[..|w.lines| - 1] == w.lines[..|w.lines| - 1]
    && Extends(w.lines[|w.lines| - 1], v.lines[|w.lines| - 1], es)
    && (!ok ==> v.lines[|w.lines| - 1].failed)
    && v.name == w.name
  }

  lemma SendHeard(env: Outside, w: World, e: Envelope)
    requires Settled(w)
    ensures var (v, r) := SendEnvelope(env, w, e);
      && Settled(v)
      && (if w.conn.Some? then Hears(w, v, [e], r.Ok?) else v == w && r.Ok?)
      && v.telemetry == w.telemetry && v.name == w.name && v.shotNumber == w.shotNumber
  {
    if w.conn.Some? {
      var v := SendEnvelope(env, w, e).0;
      match env.outcome(w.sends) {
        case Delivered => StaysOpen(w, v, [e], true);
        case PeerClosed => ClosedBySend(env, w, v, e);
        case Broken => StaysOpen(w, v, [e], false);
      }
    }
  }

  lemma StaysOpen(w: World, v: World, es: seq<Envelope>, ok: bool)
    requires Settled(w) && w.conn.Some? && v == w.(sends := v.sends, lines := v.lines)
    requires Hears(w, v, es, ok) && v.lines[|v.lines| - 1].open
    ensures Settled(v)
  {
    forall i | 0 <= i < |v.lines| ensures v.lines[i].id == i && (v.lines[i].open <==> v.conn == Some(i)) {
      if i < |w.lines| - 1 {
        assert v.lines[i] == v.lines[..|w.lines| - 1][i] == w.lines[i];
      }
    }
  }

  lemma ClosedBySend(env: Outside, w: World, v: World, e: Envelope)
    requires Settled(w) && w.conn.Some? && v == DropConnection(env, w.(sends := w.sends + 1))
    ensures Settled(v) && Hears(w, v, [e], true) && v.telemetry == w.telemetry && v.shotNumber == w.shotNumber
  {
    DropSettles(env, w.(sends := w.sends + 1));
  }

  lemma ExtendsOn(l: Line, m: Line, n: Line, a: seq<Envelope>, b: seq<Envelope>)
    requires Extends(l, m, a)
    requires if m.open then Extends(m, n, b) else n == m
    ensures Extends(l, n, a + b)
  {
    assert l.got + a + b == l.got + (a + b);
  }

  /** What is still sent once the first part is out. */
  lemma HearsOn(w: World, v: World, u: World, a: seq<Envelope>, b: seq<Envelope>, ok: bool)
    requires LinesHeld(w) && LinesHeld(v) && w.conn.Some? && Hears(w, v, a, true)
    requires if v.conn.Some? then Hears(v, u, b, ok) else u.lines == v.lines && u.name == v.name && ok
    ensures Hears(w, u, a + b, ok)
  {
    var n := |w.lines| - 1;
    ExtendsOn(w.lines[n], v.lines[n], u.lines[n], a, b);
  }

  function Envelopes(name: string, events: seq<FrpEvent>): (r: seq<Envelope>)
    ensures |r| == |events|
  {
    seq(|events|, i requires 0 <= i < |events| => Envelope(name, events[i]))
  }

  /** A failed send ends the call; it is as if the rest had been sent too, since the connection is spoiled. */
  lemma HearsFailed(w: World, v: World, a: seq<Envelope>, b: seq<Envelope>)
    requires Hears(w, v, a, false)
    ensures Hears(w, v, a + b, false)
  {}

  lemma {:induction false} EventsHeard(env: Outside, w: World, events: seq<FrpEvent>)
    requires Settled(w)
    ensures var (v, r) := SendEvents(env, w, events);
      && Settled(v) && v.telemetry == w.telemetry && v.shotNumber == w.shotNumber && v.name == w.name
      && (if w.conn.Some? then Hears(w, v, Envelopes(w.name, events), r.Ok?) else v == w && r.Ok?)
    decreases |events|
  {
    if w.conn.Some? && events != [] {
      var e, rest := Envelope(w.name, events[0]), Envelopes(w.name, events[1..]);
      var (v, r) := SendEnvelope(env, w, e);
      SendHeard(env, w, e);
      assert Envelopes(w.name, events) == [e] + rest;
      if r.Ok? {
        EventsHeard(env, v, events[1..]);
        var (u, r') := SendEvents(env, v, events[1..]);
        HearsOn(w, v, u, [e], rest, r'.Ok?);
      } else {
        HearsFailed(w, v, [e], rest);
      }
    }
  }

  /** What an event says of the device's readiness, if anything. */
  function Readiness(event: C.Event): Option<bool> {
    match event
    case Ready => Some(true)
    case StateChanged(_) => Some(false)
    case Shot(_) => Some(false)
    case _ => None
  }

  /** What an event owes a connected controller. */
  function Due(w: World, event: C.Event, uuid: string): seq<Envelope> {
    match event
    case Ready => [Telemetry(w.name, true)]
    case StateChanged(_) => [Telemetry(w.name, false)]
    case Shot(shot) =>
      [Telemetry(w.name, false)]
      + Envelopes(w.name, ShotEvents(ShotKey(uuid, NextShot(w.shotNumber)), shot))
    case _ => []
  }

  lemma ReadyHeard(env: Outside, w: World, ready: bool)
    requires Settled(w)
    ensures var (v, r) := SendReady(env, w, ready); var t := Telemetry(w.name, ready);
      && Settled(v) && v.telemetry == Some(t) && v.shotNumber == w.shotNumber && v.name == w.name
      && (if w.conn.Some? then Hears(w, v, [t], r.Ok?) else v == w.(telemetry := Some(t)) && r.Ok?)
  {
    var t := Telemetry(w.name, ready);
    SendHeard(env, w.(telemetry := Some(t)), t);
  }

  lemma ShotHeard(env: Outside, w: World, shot: C.ShotData, uuid: string)
    requires Settled(w)
    ensures var (v, r) := HandleEvent(env, w, C.Shot(shot), uuid);
      && Settled(v) && v.name == w.name && v.telemetry == Some(Telemetry(w.name, false))
      && (r.Ok? ==> v.shotNumber == NextShot(w.shotNumber))
      && (if w.conn.Some? then Hears(w, v, Due(w, C.Shot(shot), uuid), r.Ok?) else v.lines == w.lines)
  {
    var (v, r) := SendReady(env, w, false);
    ReadyHeard(env, w, false);
    var events := ShotEvents(ShotKey(uuid, NextShot(w.shotNumber)), shot);
    var t, rest := [Telemetry(w.name, false)], Envelopes(w.name, events);
    if r.Ok? {
      var u := v.(shotNumber := NextShot(v.shotNumber));
      EventsHeard(env, u, events);
      var (x, r') := SendEvents(env, u, events);
      if w.conn.Some? {
        HearsOn(w, u, x, t, rest, r'.Ok?);
      }
    } else if w.conn.Some? {
      HearsFailed(w, v, t, rest);
    }
  }

  lemma HandleHeard(env: Outside, w: World, event: C.Event, uuid: string)
    requires Settled(w)
    ensures var (v, r) := HandleEvent(env, w, event, uuid);
      && Settled(v) && v.name == w.name
      && v.telemetry ==
           (if Readiness(event).Some? then Some(Telemetry(w.name, Readiness(event).value)) else w.telemetry)
      && (if w.conn.Some? then Hears(w, v, Due(w, event, uuid), r.Ok?) else v.lines == w.lines)
  {
    match event {
      case Ready => ReadyHeard(env, w, true);
      case StateChanged(_) => ReadyHeard(env, w, false);
      case Shot(shot) => ShotHeard(env, w, shot, uuid);
      case _ => NothingHeard(w);
    }
  }

  lemma NothingHeard(w: World)
    requires Settled(w)
    ensures w.conn.Some? ==> Hears(w, w, [], true)
  {
    if w.conn.Some? {
      var l := w.lines[|w.lines| - 1];
      assert l.got + [] == l.got;
    }
  }

  /** What a controller is told when it is adopted. */
  function Greeting(w: World): seq<Envelope> {
    if w.telemetry.Some? then [w.telemetry.value] else []
  }

  lemma AdoptSettles(w: World)
    requires TokenHeld(w) && LinesHeld(w) && w.ch.queue != []
    ensures Settled(Adopt(w))
  {}

  /** Adopting a connection opens a line that hears the greeting. */
  lemma PollHeard(env: Outside, w: World)
    requires Settled(w)
    ensures var (v, r) := PollConnection(env, w);
      && Settled(v) && v.telemetry == w.telemetry && v.shotNumber == w.shotNumber && v.name == w.name
      && (v.lines == w.lines ||
          (|v.lines| == |w.lines| + 1 && v.lines[..|w.lines|] == w.lines
           && Extends(Line(|w.lines|, [], true, false), v.lines[|w.lines|], Greeting(w))))
  {
    if w.conn == None {
      var v := Between(env, w);
      BetweenKeeps(env, w);
      if v.ch.queue != [] {
        AdoptSettles(v);
        if v.telemetry.Some? {
          SendHeard(env, Adopt(v), v.telemetry.value);
        }
      }
    }
  }

  // ----- Whole runs -----

  lemma SpawnSettled(env: Outside)
    ensures Settled(Spawn(env)) && Spawn(env).lines == []
  {
    RequestSettles(env, World(None, false, None, "", 0, Channels(0, Idle, [], 0), 0, 0, []));
  }

  lemma ApplySettled(env: Outside, w: World, op: Op)
    requires Settled(w)
    ensures Settled(Apply(env, w, op))
  {
    match op {
      case Poll => PollHeard(env, w);
      case Check(inbox) => if w.conn.Some? && inbox == Failing { DropSettles(env, w); }
      case Handle(event, uuid) => HandleHeard(env, w, event, uuid);
      case SendDeviceInfo => ReadyHeard(env, w, true);
      case SetName(_) =>
      case Wait(steps) => AcceptorKeeps(w, Background(w, steps), steps);
    }
  }

  lemma {:induction false} RunSettled(env: Outside, ops: seq<Op>)
    ensures Settled(Run(env, ops))
  {
    if ops == [] {
      SpawnSettled(env);
    } else {
      RunSettled(env, ops[..|ops| - 1]);
      ApplySettled(env, Run(env, ops[..|ops| - 1]), ops[|ops| - 1]);
    }
  }

  /** Exactly one token while the acceptor lives, and `pending` says that no connection is adopted; else at most one. */
  predicate OneConnection(w: World) {
    if Alive(w) then Tokens(w) == 1 && (w.pending <==> w.conn == None)
    else Tokens(w) <= 1 && (w.pending ==> w.conn == None)
  }

  /** What one more call leaves true. */
  lemma Called(env: Outside, ops: seq<Op>, op: Op)
    ensures var w := Run(env, ops + [op]); w == Apply(env, Run(env, ops), op) && OneConnection(w)
  {
    assert (ops + [op])[..|ops|] == ops;
    RunSettled(env, ops + [op]);
  }

  /**
    In every interleaving there is exactly one token while the acceptor lives, so never two connections at once and
    never none on the way; `pending` says exactly that none is adopted. Should the acceptor die, the
    token may go with it.
   */
  lemma OneToken(env: Outside, ops: seq<Op>)
    ensures OneConnection(Run(env, ops))
  {
    RunSettled(env, ops);
  }

  /** Every connection made is adopted, in the order made, or next in line; only the last one adopted can be open. */
  lemma NoneLost(env: Outside, ops: seq<Op>)
    ensures var w := Run(env, ops);
      && w.ch.made == |w.lines| + |w.ch.queue|
      && (forall i :: 0 <= i < |w.lines| ==> w.lines[i].id == i)
      && (forall i :: 0 <= i < |w.lines| ==> (w.lines[i].open <==> w.conn == Some(i)))
      && (forall i :: 0 <= i < |w.lines| - 1 ==> !w.lines[i].open)
  {
    RunSettled(env, ops);
  }

  // ----- Recovery -----

  predicate Survives(steps: seq<AcceptorStep>) { Crash !in steps }

  /** The acceptor gets around to a request at `i`, and a later attempt of its, at `j`, succeeds. */
  predicate GetsThrough(steps: seq<AcceptorStep>, i: nat, j: nat) {
    Survives(steps) && i < j < |steps| && steps[i] == Take && steps[j] == Establish(true)
  }

  function Owing(c: Channels): nat { c.requests + (if c.worker == Working then 1 else 0) + |c.queue| }

  /** With the token on the acceptor's side, it stays there, moving only from request to attempt to connection. */
  lemma {:induction false} TokenMoves(c: Channels, steps: seq<AcceptorStep>, i: nat, j: nat)
    requires Survives(steps) && c.worker != Gone && Owing(c) == 1
    ensures var d := Acceptor(c, steps); d.worker != Gone && Owing(d) == 1
    ensures i < |steps| && steps[i] == Take ==> Acceptor(c, steps).requests == 0
    ensures GetsThrough(steps, i, j) ==> Acceptor(c, steps).queue != []
    decreases |steps|
  {
    if steps != [] {
      var n := |steps| - 1;
      var before := steps[..n];
      assert Survives(before) && steps[n] != Crash;
      TokenMoves(c, before, i, j);
    }
  }

  /**
    An unconnected device with a live acceptor adopts a connection at its next poll, if only one attempt gets through.
   */
  lemma Recovers(env: Outside, ops: seq<Op>, i: nat, j: nat)
    requires var w := Run(env, ops); Alive(w) && w.conn == None && GetsThrough(env.between(w.moments), i, j)
    ensures var w := Run(env, ops); |Run(env, ops + [Poll]).lines| == |w.lines| + 1
  {
    var w := Run(env, ops);
    RunSettled(env, ops);
    TokenMoves(w.ch, env.between(w.moments), i, j);
    assert (ops + [Poll])[..|ops|] == ops;
    BetweenKeeps(env, w);
    var a := Adopt(Between(env, w));
    AdoptSettles(Between(env, w));
    if a.telemetry.Some? {
      SendHeard(env, a, a.telemetry.value);
    }
  }

  // ----- What controllers hear -----

  function ToLast(owed: seq<seq<seq<Envelope>>>, g: seq<Envelope>): seq<seq<seq<Envelope>>> {
    if owed == [] then [] else owed[..|owed| - 1] + [owed[|owed| - 1] + [g]]
  }

  /** For each connection, call by call: the greeting, and what each event handled while it was adopted owes it. */
  function Owed(env: Outside, ops: seq<Op>): seq<seq<seq<Envelope>>> {
    if ops == [] then []
    else
      var before, w := Owed(env, ops[..|ops| - 1]), Run(env, ops[..|ops| - 1]);
      match ops[|ops| - 1]
      case Poll => if |Run(env, ops).lines| > |w.lines| then before + [[Greeting(w)]] else before
      case Handle(event, uuid) => if w.conn.Some? then ToLast(before, Due(w, event, uuid)) else before
      case SendDeviceInfo => if w.conn.Some? then ToLast(before, [Telemetry(w.name, true)]) else before
      case _ => before
  }

  /** All of it, if the connection is open; if not, all but a part of what the last call owed. */
  predicate Told(l: Line, due: seq<seq<Envelope>>) {
    && due != []
    && Flatten(due[..|due| - 1]) <= l.got <= Flatten(due)
    && (l.open ==> l.got == Flatten(due))
  }

  predicate AllTold(lines: seq<Line>, owed: seq<seq<seq<Envelope>>>) {
    |lines| == |owed| && forall i :: 0 <= i < |lines| ==> lines[i].failed || Told(lines[i], owed[i])
  }

  lemma OneMoreCall(l: Line, l': Line, due: seq<seq<Envelope>>, g: seq<Envelope>)
    requires (l.failed || Told(l, due)) && l.open && Extends(l, l', g)
    ensures l'.failed || Told(l', due + [g])
  {
    assert (due + [g])[..|due|] == due;
  }

  lemma CallTold(w: World, v: World, owed: seq<seq<seq<Envelope>>>, g: seq<Envelope>, ok: bool)
    requires LinesHeld(w) && w.conn.Some? && AllTold(w.lines, owed) && Hears(w, v, g, ok)
    ensures AllTold(v.lines, ToLast(owed, g))
  {
    var n := |w.lines| - 1;
    OneMoreCall(w.lines[n], v.lines[n], owed[n], g);
    LastTold(w.lines, v.lines, owed, owed[n] + [g]);
  }

  lemma LastTold(lines: seq<Line>, lines': seq<Line>, owed: seq<seq<seq<Envelope>>>, due: seq<seq<Envelope>>)
    requires AllTold(lines, owed) && |lines'| == |lines| > 0
    requires var n := |lines| - 1; lines'[..n] == lines[..n] && (lines'[n].failed || Told(lines'[n], due))
    ensures AllTold(lines', owed[..|owed| - 1] + [due])
  {
    var n, all := |lines| - 1, owed[..|owed| - 1] + [due];
    forall i | 0 <= i < n ensures lines'[i].failed || Told(lines'[i], all[i]) {
      assert lines'[i] == lines'[..n][i] == lines[i] && all[i] == owed[i];
    }
  }

  lemma NewTold(l: Line, id: nat, g: seq<Envelope>)
    requires Extends(Line(id, [], true, false), l, g)
    ensures l.failed || Told(l, [g])
  {
    FlattenOne(g);
    assert [g][..0] == [];
    assert [] + g == g;
  }

  lemma AdoptTold(w: World, v: World, owed: seq<seq<seq<Envelope>>>)
    requires AllTold(w.lines, owed) && |v.lines| == |w.lines| + 1 && v.lines[..|w.lines|] == w.lines
    requires Extends(Line(|w.lines|, [], true, false), v.lines[|w.lines|], Greeting(w))
    ensures AllTold(v.lines, owed + [[Greeting(w)]])
  {
    NewTold(v.lines[|w.lines|], |w.lines|, Greeting(w));
    forall i | 0 <= i < |w.lines| ensures v.lines[i].failed || Told(v.lines[i], (owed + [[Greeting(w)]])[i]) {
      assert v.lines[i] == v.lines[..|w.lines|][i];
    }
  }

  lemma DropTold(w: World, owed: seq<seq<seq<Envelope>>>)
    requires LinesHeld(w) && w.conn.Some? && AllTold(w.lines, owed)
    ensures AllTold(CloseLast(w.lines), owed)
  {}

  /** Every connection on which no send failed got what it was owed, in order, up to the point where it closed. */
  lemma {:induction false} ControllersAreTold(env: Outside, ops: seq<Op>)
    ensures AllTold(Run(env, ops).lines, Owed(env, ops))
  {
    if ops == [] {
      SpawnSettled(env);
    } else {
      var w, owed := Run(env, ops[..|ops| - 1]), Owed(env, ops[..|ops| - 1]);
      RunSettled(env, ops[..|ops| - 1]);
      ControllersAreTold(env, ops[..|ops| - 1]);
      match ops[|ops| - 1] {
        case Poll =>
          PollHeard(env, w);
          var v := PollConnection(env, w).0;
          if v.lines != w.lines {
            AdoptTold(w, v, owed);
          }
        case Check(inbox) =>
          if w.conn.Some? && inbox == Failing {
            DropSettles(env, w);
            DropTold(w, owed);
          }
        case Handle(event, uuid) =>
          HandleHeard(env, w, event, uuid);
          var (v, r) := HandleEvent(env, w, event, uuid);
          if w.conn.Some? {
            CallTold(w, v, owed, Due(w, event, uuid), r.Ok?);
          }
        case SendDeviceInfo =>
          ReadyHeard(env, w, true);
          var (v, r) := SendReady(env, w, true);
          if w.conn.Some? {
            CallTold(w, v, owed, [Telemetry(w.name, true)], r.Ok?);
          }
        case SetName(_) =>
        case Wait(_) =>
      }
    }
  }

  // ----- What is cached -----

  function NameAfter(ops: seq<Op>): string {
    if ops == [] then ""
    else
      match ops[|ops| - 1]
      case SetName(name) => name
      case _ => NameAfter(ops[..|ops| - 1])
  }

  /** The readiness last announced, whoever was there to hear it, under the name of that time. */
  function LastAnnounced(ops: seq<Op>): Option<Envelope> {
    if ops == [] then None
    else
      var before, name := ops[..|ops| - 1], NameAfter(ops[..|ops| - 1]);
      match ops[|ops| - 1]
      case SendDeviceInfo => Some(Telemetry(name, true))
      case Handle(event, _) =>
        if Readiness(event).Some? then Some(Telemetry(name, Readiness(event).value)) else LastAnnounced(before)
      case _ => LastAnnounced(before)
  }

  /**
    The greeting for the next controller is what was last announced, even if nobody was connected or the send failed.
   */
  lemma {:induction false} GreetingIsLatest(env: Outside, ops: seq<Op>)
    ensures Run(env, ops).telemetry == LastAnnounced(ops) && Run(env, ops).name == NameAfter(ops)
  {
    if ops == [] {
      RequestSettles(env, World(None, false, None, "", 0, Channels(0, Idle, [], 0), 0, 0, []));
    } else {
      var w := Run(env, ops[..|ops| - 1]);
      RunSettled(env, ops[..|ops| - 1]);
      GreetingIsLatest(env, ops[..|ops| - 1]);
      match ops[|ops| - 1] {
        case Poll => PollHeard(env, w);
        case Check(inbox) => if w.conn.Some? && inbox == Failing { DropSettles(env, w); }
        case Handle(event, uuid) => HandleHeard(env, w, event, uuid);
        case SendDeviceInfo => ReadyHeard(env, w, true);
        case _ =>
      }
    }
  }

  lemma {:induction false} AnnouncedIsTelemetry(ops: seq<Op>)
    ensures LastAnnounced(ops).Some? ==> LastAnnounced(ops).value.event.DeviceTelemetry?
  {
    if ops != [] {
      AnnouncedIsTelemetry(ops[..|ops| - 1]);
    }
  }

  // ----- Shots stay whole -----

  /** `b` may come right after `a` on a connection. */
  predicate MayFollow(a: Envelope, b: Envelope) {
    match a.event
    case DeviceTelemetry(ready) => b.event.DeviceTelemetry? || (b.event.ShotTrigger? && !ready && b.device == a.device)
    case ShotTrigger(key) =>
      !b.event.DeviceTelemetry? && !b.event.ShotTrigger? && b.event.key == key && b.device == a.device
    case BallFlight(key, _) =>
      (b.event.ClubPath? || b.event.ShotFinished?) && b.event.key == key && b.device == a.device
    case ClubPath(key, _) => b.event.ShotFinished? && b.event.key == key && b.device == a.device
    case ShotFinished(_) => b.event.DeviceTelemetry?
  }

  predicate Orderly(s: seq<Envelope>) {
    && (s != [] ==> s[0].event.DeviceTelemetry?)
    && forall i :: 0 <= i < |s| - 1 ==> MayFollow(s[i], s[i + 1])
  }

  /** Not in the middle of a shot. */
  predicate BetweenShots(s: seq<Envelope>) {
    s == [] || s[|s| - 1].event.DeviceTelemetry? || s[|s| - 1].event.ShotFinished?
  }

  predicate Whole(s: seq<Envelope>) { Orderly(s) && BetweenShots(s) }

  lemma OrderlyJoin(a: seq<Envelope>, b: seq<Envelope>)
    requires Whole(a) && Whole(b)
    ensures Whole(a + b)
  {
    var s := a + b;
    forall i | 0 <= i < |s| - 1 ensures MayFollow(s[i], s[i + 1]) {
      if i + 1 < |a| {
        assert s[i] == a[i] && s[i + 1] == a[i + 1];
      } else if i >= |a| {
        assert s[i] == b[i - |a|] && s[i + 1] == b[i - |a| + 1];
      }
    }
  }

  lemma DueWhole(w: World, event: C.Event, uuid: string)
    ensures Whole(Due(w, event, uuid))
  {
    match event {
      case Shot(shot) => ShotWhole(w.name, ShotKey(uuid, NextShot(w.shotNumber)), shot);
      case _ =>
    }
  }

  lemma ShotWhole(name: string, key: ShotKey, shot: C.ShotData)
    ensures Whole([Telemetry(name, false)] + Envelopes(name, ShotEvents(key, shot)))
  {}

  lemma {:induction false} FlattenWhole(due: seq<seq<Envelope>>)
    requires forall k :: 0 <= k < |due| ==> Whole(due[k])
    ensures Whole(Flatten(due))
  {
    if due != [] {
      FlattenWhole(due[..|due| - 1]);
      OrderlyJoin(Flatten(due[..|due| - 1]), due[|due| - 1]);
    }
  }

  predicate AllWhole(owed: seq<seq<seq<Envelope>>>) {
    forall i, k :: 0 <= i < |owed| && 0 <= k < |owed[i]| ==> Whole(owed[i][k])
  }

  lemma ToLastWhole(owed: seq<seq<seq<Envelope>>>, g: seq<Envelope>)
    requires AllWhole(owed) && Whole(g)
    ensures AllWhole(ToLast(owed, g))
  {}

  lemma {:induction false} OwedWhole(env: Outside, ops: seq<Op>)
    ensures AllWhole(Owed(env, ops))
  {
    if ops != [] {
      var w, owed := Run(env, ops[..|ops| - 1]), Owed(env, ops[..|ops| - 1]);
      OwedWhole(env, ops[..|ops| - 1]);
      match ops[|ops| - 1] {
        case Poll =>
          GreetingIsLatest(env, ops[..|ops| - 1]);
          AnnouncedIsTelemetry(ops[..|ops| - 1]);
        case Handle(event, uuid) =>
          DueWhole(w, event, uuid);
          ToLastWhole(owed, Due(w, event, uuid));
        case SendDeviceInfo => ToLastWhole(owed, [Telemetry(w.name, true)]);
        case _ =>
      }
    }
  }

  /**
    A controller on whose connection no send failed hears telemetry first, and every shot right after ready=false, in
    one piece and under one key; only the closing of the connection can cut a shot short.
   */
  lemma ShotsStayWhole(env: Outside, ops: seq<Op>, i: nat)
    requires i < |Run(env, ops).lines| && !Run(env, ops).lines[i].failed
    ensures var l := Run(env, ops).lines[i]; Orderly(l.got) && (l.open ==> BetweenShots(l.got))
  {
    ControllersAreTold(env, ops);
    OwedWhole(env, ops);
    FlattenWhole(Owed(env, ops)[i]);
  }

  // ----- Shot numbers -----

  predicate HandlesShot(op: Op) { op.Handle? && op.event.Shot? }

  /** What the device sends next does not fail without closing the connection, or there is none. */
  predicate CanAnnounce(env: Outside, w: World) { w.conn == None || env.outcome(w.sends) != Broken }

  /** The shots handled whose announcement, ready=false, did not fail. */
  function ShotsAnnounced(env: Outside, ops: seq<Op>): nat {
    if ops == [] then 0
    else
      var n := |ops| - 1;
      ShotsAnnounced(env, ops[..n]) + (if HandlesShot(ops[n]) && CanAnnounce(env, Run(env, ops[..n])) then 1 else 0)
  }

  function ShotsHandled(ops: seq<Op>): nat {
    if ops == [] then 0 else ShotsHandled(ops[..|ops| - 1]) + (if HandlesShot(ops[|ops| - 1]) then 1 else 0)
  }

  lemma NextNumber(a: nat, k: nat)
    requires a == k % 0x1_0000_0000
    ensures NextShot(a) == (k + 1) % 0x1_0000_0000
  {}

  /**
    Shots are numbered from 1, modulo 2^32, whether or not a controller is there to hear of them; one whose announcement
    fails takes no number.
   */
  lemma {:induction false} ShotsNumbered(env: Outside, ops: seq<Op>)
    ensures Run(env, ops).shotNumber == ShotsAnnounced(env, ops) % 0x1_0000_0000
  {
    if ops == [] {
      SpawnNumber(env);
    } else {
      var n := |ops| - 1;
      RunSettled(env, ops[..n]);
      ShotsNumbered(env, ops[..n]);
      NumberStep(env, Run(env, ops[..n]), ops[n], Run(env, ops), ShotsAnnounced(env, ops[..n]),
                 ShotsAnnounced(env, ops));
    }
  }

  /** If no send ever fails that way, these are all the shots handled. */
  lemma {:induction false} AllAnnounced(env: Outside, ops: seq<Op>)
    requires forall k: nat :: env.outcome(k) != Broken
    ensures ShotsAnnounced(env, ops) == ShotsHandled(ops)
  {
    if ops != [] {
      AllAnnounced(env, ops[..|ops| - 1]);
    }
  }

  lemma SpawnNumber(env: Outside)
    ensures Spawn(env).shotNumber == 0
  {
    RequestSettles(env, World(None, false, None, "", 0, Channels(0, Idle, [], 0), 0, 0, []));
  }

  lemma NumberStep(env: Outside, w: World, op: Op, v: World, k: nat, m: nat)
    requires Settled(w) && w.shotNumber == k % 0x1_0000_0000
    requires v == Apply(env, w, op) && m == k + (if HandlesShot(op) && CanAnnounce(env, w) then 1 else 0)
    ensures v.shotNumber == m % 0x1_0000_0000
  {
    ApplyNumbers(env, w, op);
    NextNumber(w.shotNumber, k);
  }

  lemma ApplyNumbers(env: Outside, w: World, op: Op)
    requires Settled(w)
    ensures Apply(env, w, op).shotNumber ==
      if HandlesShot(op) && CanAnnounce(env, w) then NextShot(w.shotNumber) else w.shotNumber
  {
    match op {
      case Poll => PollHeard(env, w);
      case Check(inbox) => if w.conn.Some? && inbox == Failing { DropSettles(env, w); }
      case Handle(event, uuid) => HandleNumbers(env, w, event, uuid);
      case SendDeviceInfo => ReadyHeard(env, w, true);
      case _ =>
    }
  }

  lemma AnnouncedIff(env: Outside, w: World)
    ensures SendReady(env, w, false).1.Ok? <==> CanAnnounce(env, w)
  {}

  lemma HandleNumbers(env: Outside, w: World, event: C.Event, uuid: string)
    requires Settled(w)
    ensures HandleEvent(env, w, event, uuid).0.shotNumber ==
      if event.Shot? && CanAnnounce(env, w) then NextShot(w.shotNumber) else w.shotNumber
  {
    match event {
      case Ready => ReadyHeard(env, w, true);
      case StateChanged(_) => ReadyHeard(env, w, false);
      case Shot(shot) => ShotNumber(env, w, shot, uuid, SendReady(env, w, false).0);
      case _ =>
    }
  }

  lemma ShotNumber(env: Outside, w: World, shot: C.ShotData, uuid: string, v: World)
    requires Settled(w) && v == SendReady(env, w, false).0
    ensures HandleEvent(env, w, C.Shot(shot), uuid).0.shotNumber ==
      if CanAnnounce(env, w) then NextShot(w.shotNumber) else w.shotNumber
  {
    AnnouncedIff(env, w);
    ReadyHeard(env, w, false);
    var u := v.(shotNumber := NextShot(v.shotNumber));
    EventsHeard(env, u, ShotEvents(ShotKey(uuid, NextShot(w.shotNumber)), shot));
  }
}
