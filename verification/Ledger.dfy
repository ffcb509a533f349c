/** What a session's log adds up to, and what the sums must show. */
module Ledger {
  import opened Wrappers
  import opened Bytes
  import opened Gfdi
  import opened Shots
  import opened ClientModel

  /** A device state as taken up or reported, and whether by the Ready that an answered wake queues. */
  datatype Named = Named(state: DeviceState, queued: bool)

  /** Whether everything written for a message went out, once that is known. */
  datatype Fate = Undecided | Written | Lost

  /** Failed frames, wake requests tried and owed, and the ids of the requests tried. */
  datatype CountBook = CountBook(failed: nat, wakes: nat, wakesOwed: nat, ids: seq<nat>)

  /** Shots as they arrived, what became of their messages, and the ids reported. */
  datatype ShotBook = ShotBook(arrivals: seq<Arrival>, fates: seq<Fate>, reported: seq<nat>)

  /** Changes of state as they were taken up, what became of their messages, and the states reported. */
  datatype StateBook = StateBook(changes: seq<Named>, fates: seq<Fate>, reported: seq<Named>)

  datatype Books = Books(
    got: seq<Word>,
    acks: seq<Word>,
    owed: seq<Word>,
    counts: CountBook,
    shots: ShotBook,
    states: StateBook)

  const EMPTY: Books := Books([], [], [], CountBook(0, 0, 0, []), ShotBook([], [], []), StateBook([], [], []))

  /** The message types the client must acknowledge. */
  predicate Ackable(t: Word) {
    || t == MSG_DEVICE_INFO || t == MSG_CONFIGURATION
    || t == MSG_FIT_DEFINITION || t == MSG_FIT_DATA
    || t == MSG_PROTOBUF_REQUEST || t == MSG_PROTOBUF_RESPONSE
  }

  /** Every fate is decided. */
  predicate AllDecided(fates: seq<Fate>) {
    fates != [] ==> fates[|fates| - 1] != Undecided && AllDecided(fates[..|fates| - 1])
  }

  /** Every fate but perhaps the last is. */
  predicate NearlyDecided(fates: seq<Fate>) { fates != [] ==> AllDecided(fates[..|fates| - 1]) }

  lemma {:induction false} DecidedAt(fates: seq<Fate>, k: nat)
    requires AllDecided(fates) && k < |fates|
    ensures fates[k] != Undecided
  {
    if k < |fates| - 1 {
      DecidedAt(fates[..|fates| - 1], k);
    }
  }

  lemma DecideDecides(fates: seq<Fate>, f: Fate)
    requires NearlyDecided(fates) && f != Undecided
    ensures AllDecided(Decide(fates, f)) && NearlyDecided(Decide(fates, f))
  {
    var r := Decide(fates, f);
    assert fates != [] ==> r[..|r| - 1] == fates[..|fates| - 1];
  }

  lemma NewFate(fates: seq<Fate>)
    requires AllDecided(fates)
    ensures NearlyDecided(fates + [Undecided])
  {
    assert (fates + [Undecided])[..|fates|] == fates;
  }

  function Decide(fates: seq<Fate>, f: Fate): (r: seq<Fate>)
    ensures |r| == |fates|
  {
    if fates != [] && fates[|fates| - 1] == Undecided then fates[..|fates| - 1] + [f] else fates
  }

  function TakeShot(b: ShotBook, a: Arrival): ShotBook {
    b.(arrivals := b.arrivals + [a], fates := b.fates + [Undecided])
  }

  function DecideShots(b: ShotBook, f: Fate): ShotBook { b.(fates := Decide(b.fates, f)) }

  function TakeChange(b: StateBook, n: Named): StateBook {
    b.(changes := b.changes + [n], fates := b.fates + [Undecided])
  }

  function DecideStates(b: StateBook, f: Fate): StateBook { b.(fates := Decide(b.fates, f)) }

  function OweWake(b: CountBook): CountBook { b.(wakesOwed := b.wakesOwed + 1) }

  function Ask(b: CountBook, id: nat, kind: RequestKind): CountBook {
    b.(ids := b.ids + [id], wakes := if kind == Wake then b.wakes + 1 else b.wakes)
  }

  function Close(b: Books, f: Fate): Books {
    b.(shots := DecideShots(b.shots, f), states := DecideStates(b.states, f))
  }

  function Fail(b: Books): Books { Close(b.(counts := b.counts.(failed := b.counts.failed + 1)), Lost) }

  /**
    An envelope taken up in `phase`, `last` being the last state: a shot; a change of state, which owes a wake request
    when an active device goes to standby; a wake that found the device awake; a subscription answered, which owes one.
   */
  function Took(b: Books, v: EnvelopeEvent, at: nat, phase: Phase, last: Option<DeviceState>): Books {
    match v
    case ShotResult(shot) => b.(shots := TakeShot(b.shots, Arrival(shot.shotId, at)))
    case StateChange(state) =>
      if last == Some(state) then b
      else
        var c := b.(states := TakeChange(b.states, Named(state, false)));
        if state == Standby && phase == Active then c.(counts := OweWake(b.counts)) else c
    case WakeResult(status) => if status == 1 then b.(states := TakeChange(b.states, Named(Waiting, true))) else b
    case SubscribeResult(_) => if phase == Subscribing then b.(counts := OweWake(b.counts)) else b
    case _ => b
  }

  function Asking(b: Books, id: nat, kind: RequestKind): Books { b.(counts := Ask(b.counts, id, kind)) }

  function Name(b: Books, n: seq<Named>): Books { b.(states := b.states.(reported := b.states.reported + n)) }

  function Post(b: Books, e: Entry): Books {
    match e
    case Got(t) => b.(got := b.got + [t])
    case GotAckOf(_) => b
    case GotEnvelope(v, at, phase, last) => Took(b, v, at, phase, last)
    case Sent(Ack(t, _, _)) => Close(b.(acks := b.acks + [t]), Written)
    case Sent(HostCapabilities) => b
    case Sent(Request(id, kind, _)) => Asking(b, id, kind)
    case Unsent(Ack(_, _, _)) => Fail(b)
    case Unsent(HostCapabilities) => Fail(b.(owed := b.owed + [MSG_CONFIGURATION]))
    case Unsent(Request(id, kind, _)) => Fail(Asking(b, id, kind))
    case Done(t) => if Ackable(t) then b.(owed := b.owed + [t]) else b
    case Emitted(Ready, queued) => Name(b, [Named(Waiting, queued)])
    case Emitted(StateChanged(state), queued) => Name(b, [Named(state, queued)])
    case Emitted(Shot(shot), _) => b.(shots := b.shots.(reported := b.shots.reported + [shot.shotId]))
    case Emitted(_, _) => b
  }

  function Tally(log: seq<Entry>): Books {
    if log == [] then EMPTY else Post(Tally(log[..|log| - 1]), log[|log| - 1])
  }

  lemma TallyPush(log: seq<Entry>, e: Entry)
    ensures Tally(log + [e]) == Post(Tally(log), e)
  {
    assert (log + [e])[..|log|] == log;
  }

  // ----- Numbers -----

  /** The ids count up from 1, modulo 65536. */
  predicate Numbered(ids: seq<nat>) {
    ids != [] ==> ids[|ids| - 1] == |ids| % 0x1_0000 && Numbered(ids[..|ids| - 1])
  }

  lemma NextNumbered(ids: seq<nat>, id: nat)
    requires Numbered(ids) && id == (|ids| + 1) % 0x1_0000
    ensures Numbered(ids + [id]) && (id + 1) % 0x1_0000 == (|ids + [id]| + 1) % 0x1_0000
  {
    assert (ids + [id])[..|ids|] == ids;
    NextModulo(id, |ids| + 1);
  }

  lemma NextModulo(id: nat, k: nat)
    requires id == k % 0x1_0000
    ensures (id + 1) % 0x1_0000 == (k + 1) % 0x1_0000
  {}

  lemma {:induction false} NumberedAt(ids: seq<nat>, k: nat)
    requires Numbered(ids) && 1 <= k <= |ids|
    ensures ids[k - 1] == k % 0x1_0000
  {
    if k < |ids| {
      NumberedAt(ids[..|ids| - 1], k);
    }
  }

  ghost predicate CountsOk(env: Env, b: CountBook, reqId: nat) {
    && b.wakes == b.wakesOwed
    && Numbered(b.ids) && reqId == (|b.ids| + 1) % 0x1_0000
    && (AllAccepted(env) ==> b.failed == 0)
  }

  lemma AskCounts(env: Env, b: CountBook, reqId: nat, kind: RequestKind)
    requires CountsOk(env, b, reqId)
    ensures CountsOk(env, Ask(if kind == Wake then OweWake(b) else b, reqId, kind), (reqId + 1) % 0x1_0000)
  {
    NextNumbered(b.ids, reqId);
  }

  // ----- Shots -----

  function IdsOf(a: seq<Arrival>): (r: seq<nat>)
    ensures |r| == |a|
  {
    if a == [] then [] else IdsOf(a[..|a| - 1]) + [a[|a| - 1].id]
  }

  lemma {:induction false} IdsOfAt(a: seq<Arrival>, i: nat)
    requires i < |a|
    ensures IdsOf(a)[i] == a[i].id
  {
    if i < |a| - 1 {
      IdsOfAt(a[..|a| - 1], i);
    }
  }

  lemma IdsOfPush(a: seq<Arrival>, x: Arrival)
    ensures IdsOf(a + [x]) == IdsOf(a) + [x.id]
  {
    assert (a + [x])[..|a|] == a;
  }

  /** The arrivals the full history accepts and whose acknowledgment was written. */
  function ReportedShots(arrivals: seq<Arrival>, fates: seq<Fate>): seq<Arrival>
    requires |arrivals| == |fates|
  {
    if arrivals == [] then []
    else
      var n := |arrivals| - 1;
      ReportedShots(arrivals[..n], fates[..n]) +
      (if Offer(Cache(arrivals[..n]), arrivals[n]).1 && fates[n] == Written then [arrivals[n]] else [])
  }

  predicate ShotsOk(b: ShotBook, recent: seq<Arrival>) {
    && |b.fates| == |b.arrivals| && NearlyDecided(b.fates)
    && recent == Cache(b.arrivals)
    && b.reported == IdsOf(ReportedShots(b.arrivals, b.fates))
  }

  /** Once the acknowledgment is written, `ids` are to be reported. */
  predicate ShotsDue(b: ShotBook, ids: seq<nat>) {
    && |b.fates| == |b.arrivals|
    && IdsOf(ReportedShots(b.arrivals, Decide(b.fates, Written))) == b.reported + ids
  }

  lemma ReportedShotsPush(arrivals: seq<Arrival>, fates: seq<Fate>, a: Arrival, f: Fate)
    requires |arrivals| == |fates|
    ensures ReportedShots(arrivals + [a], fates + [f]) ==
      ReportedShots(arrivals, fates) + (if Offer(Cache(arrivals), a).1 && f == Written then [a] else [])
  {
    assert (arrivals + [a])[..|arrivals|] == arrivals && (fates + [f])[..|fates|] == fates;
  }

  lemma ShotsIdle(b: ShotBook, recent: seq<Arrival>)
    requires ShotsOk(b, recent) && AllDecided(b.fates)
    ensures ShotsDue(b, [])
  {
    assert b.reported + [] == b.reported;
  }

  /** A shot arrives, and is offered to the cache of the earlier ones. */
  lemma TakeShotOk(b: ShotBook, recent: seq<Arrival>, a: Arrival)
    requires ShotsOk(b, recent) && AllDecided(b.fates)
    ensures ShotsOk(TakeShot(b, a), Offer(recent, a).0)
  {
    NewFate(b.fates);
    var before, all := ReportedShots(b.arrivals, b.fates), b.arrivals + [a];
    assert all[..|b.arrivals|] == b.arrivals && before + [] == before;
    OneArrival(all, b.arrivals, a);
    ReportedShotsPush(b.arrivals, b.fates, a, Undecided);
  }

  lemma TakeShotDue(b: ShotBook, recent: seq<Arrival>, a: Arrival)
    requires ShotsOk(b, recent)
    ensures ShotsDue(TakeShot(b, a), if Offer(recent, a).1 then [a.id] else [])
  {
    var before := ReportedShots(b.arrivals, b.fates);
    ReportedShotsPush(b.arrivals, b.fates, a, Written);
    IdsOfPush(before, a);
    assert Decide(b.fates + [Undecided], Written) == b.fates + [Written];
    assert before + [] == before && b.reported + [] == b.reported;
  }

  lemma LostReportedShots(arrivals: seq<Arrival>, fates: seq<Fate>)
    requires |arrivals| == |fates|
    ensures ReportedShots(arrivals, Decide(fates, Lost)) == ReportedShots(arrivals, fates)
  {
    var n := |arrivals| - 1;
    if arrivals != [] && fates[n] == Undecided {
      LastShotLost(arrivals[..n], fates[..n], arrivals[n], arrivals, fates);
    }
  }

  lemma LastShotLost(before: seq<Arrival>, settled: seq<Fate>, a: Arrival, arrivals: seq<Arrival>, fates: seq<Fate>)
    requires |before| == |settled| && arrivals == before + [a] && fates == settled + [Undecided]
    ensures ReportedShots(arrivals, settled + [Lost]) == ReportedShots(arrivals, fates)
  {
    ReportedShotsPush(before, settled, a, Undecided);
    ReportedShotsPush(before, settled, a, Lost);
  }

  lemma LostShots(b: ShotBook, recent: seq<Arrival>)
    requires ShotsOk(b, recent)
    ensures ShotsOk(DecideShots(b, Lost), recent) && AllDecided(Decide(b.fates, Lost))
  {
    DecideDecides(b.fates, Lost);
    LostReportedShots(b.arrivals, b.fates);
  }

  lemma WrittenShots(b: ShotBook, recent: seq<Arrival>, ids: seq<nat>)
    requires ShotsOk(b, recent) && ShotsDue(b, ids)
    ensures ShotsOk(DecideShots(b, Written).(reported := b.reported + ids), recent) &&
      AllDecided(Decide(b.fates, Written))
  {
    DecideDecides(b.fates, Written);
  }

  // ----- States -----

  /** Two in a row name the same state only if the second is queued. */
  predicate Alternates(n: seq<Named>) {
    n != [] ==>
      var before, m := n[..|n| - 1], n[|n| - 1];
      Alternates(before) && (LastNamed(before) == Some(m.state) ==> m.queued)
  }

  function LastNamed(n: seq<Named>): Option<DeviceState> {
    if n == [] then None else Some(n[|n| - 1].state)
  }

  lemma {:induction false} AlternatesAt(n: seq<Named>, i: nat)
    requires Alternates(n) && i + 1 < |n| && n[i].state == n[i + 1].state
    ensures n[i + 1].queued
  {
    if i + 2 < |n| {
      AlternatesAt(n[..|n| - 1], i);
    }
  }

  lemma AlternatesMore(n: seq<Named>, m: Named)
    requires Alternates(n) && (LastNamed(n) == Some(m.state) ==> m.queued)
    ensures Alternates(n + [m]) && LastNamed(n + [m]) == Some(m.state)
  {
    assert (n + [m])[..|n|] == n;
  }

  /** The changes that are reported: those whose writes went out, and every queued Ready. */
  function Reports(changes: seq<Named>, fates: seq<Fate>): seq<Named>
    requires |changes| == |fates|
  {
    if changes == [] then []
    else
      var n := |changes| - 1;
      Reports(changes[..n], fates[..n]) + (if changes[n].queued || fates[n] == Written then [changes[n]] else [])
  }

  function Waits(pending: Option<Event>): seq<Named> { if pending == None then [] else [Named(Waiting, true)] }

  /** The changes alternate, the client's last state is the last of them, and the reports are as they should be. */
  predicate StatesOk(b: StateBook, last: Option<DeviceState>, pending: Option<Event>) {
    && |b.fates| == |b.changes| && NearlyDecided(b.fates)
    && Alternates(b.changes) && last == LastNamed(b.changes)
    && (pending == None || pending == Some(Ready))
    && Reports(b.changes, b.fates) == b.reported + Waits(pending)
  }

  /** Once the acknowledgment is written, `names` are to be reported. */
  predicate StatesDue(b: StateBook, pending: Option<Event>, names: seq<Named>) {
    && |b.fates| == |b.changes|
    && Reports(b.changes, Decide(b.fates, Written)) == b.reported + names + Waits(pending)
  }

  lemma ReportsPush(changes: seq<Named>, fates: seq<Fate>, n: Named, f: Fate)
    requires |changes| == |fates|
    ensures Reports(changes + [n], fates + [f]) ==
      Reports(changes, fates) + (if n.queued || f == Written then [n] else [])
  {
    assert (changes + [n])[..|changes|] == changes && (fates + [f])[..|fates|] == fates;
  }

  lemma StatesIdle(b: StateBook, last: Option<DeviceState>, pending: Option<Event>)
    requires StatesOk(b, last, pending) && AllDecided(b.fates)
    ensures StatesDue(b, pending, [])
  {
    assert b.reported + [] == b.reported;
  }

  /** A change of state is taken up, or a Ready queued, which is a change of its own. */
  lemma TakeChangeOk(b: StateBook, last: Option<DeviceState>, n: Named)
    requires StatesOk(b, last, None) && AllDecided(b.fates)
    requires (last == Some(n.state) ==> n.queued) && (n.queued ==> n.state == Waiting)
    ensures StatesOk(TakeChange(b, n), Some(n.state), if n.queued then Some(Ready) else None)
  {
    NewFate(b.fates);
    AlternatesMore(b.changes, n);
    TakenReports(b, n);
  }

  lemma TakenReports(b: StateBook, n: Named)
    requires |b.fates| == |b.changes| && Reports(b.changes, b.fates) == b.reported + Waits(None)
    requires n.queued ==> n.state == Waiting
    ensures Reports(b.changes + [n], b.fates + [Undecided]) ==
      b.reported + Waits(if n.queued then Some(Ready) else None)
  {
    var before := Reports(b.changes, b.fates);
    ReportsPush(b.changes, b.fates, n, Undecided);
    assert before + [] == before && b.reported + [] == b.reported;
  }

  lemma TakeChangeDue(b: StateBook, last: Option<DeviceState>, n: Named)
    requires StatesOk(b, last, None) && (n.queued ==> n.state == Waiting)
    ensures StatesDue(TakeChange(b, n), if n.queued then Some(Ready) else None, if n.queued then [] else [n])
  {
    ReportsPush(b.changes, b.fates, n, Written);
    assert Decide(b.fates + [Undecided], Written) == b.fates + [Written];
    assert b.reported + [] == b.reported && b.reported + [n] + [] == b.reported + [n];
  }

  lemma LostReports(changes: seq<Named>, fates: seq<Fate>)
    requires |changes| == |fates|
    ensures Reports(changes, Decide(fates, Lost)) == Reports(changes, fates)
  {
    var n := |changes| - 1;
    if changes != [] && fates[n] == Undecided {
      LastLost(changes[..n], fates[..n], changes[n], changes, fates);
    }
  }

  lemma LastLost(before: seq<Named>, settled: seq<Fate>, n: Named, changes: seq<Named>, fates: seq<Fate>)
    requires |before| == |settled| && changes == before + [n] && fates == settled + [Undecided]
    ensures Reports(changes, settled + [Lost]) == Reports(changes, fates)
  {
    ReportsPush(before, settled, n, Undecided);
    ReportsPush(before, settled, n, Lost);
  }

  lemma LostStates(b: StateBook, last: Option<DeviceState>, pending: Option<Event>)
    requires StatesOk(b, last, pending)
    ensures StatesOk(DecideStates(b, Lost), last, pending) && AllDecided(Decide(b.fates, Lost))
  {
    DecideDecides(b.fates, Lost);
    LostReports(b.changes, b.fates);
  }

  lemma WrittenStates(b: StateBook, last: Option<DeviceState>, pending: Option<Event>, names: seq<Named>)
    requires StatesOk(b, last, pending) && StatesDue(b, pending, names)
    ensures StatesOk(DecideStates(b, Written).(reported := b.reported + names), last, pending)
    ensures AllDecided(Decide(b.fates, Written))
  {
    DecideDecides(b.fates, Written);
  }

  // ----- The books against a state -----

  /** Everything but the acknowledgments, which lag while a message is being handled. */
  ghost predicate InOrder(env: Env, b: Books, st: State) {
    && CountsOk(env, b.counts, st.reqId)
    && ShotsOk(b.shots, st.recent)
    && StatesOk(b.states, st.lastState, st.pending)
  }

  predicate Decided(b: Books) { AllDecided(b.shots.fates) && AllDecided(b.states.fates) }

  ghost predicate Balanced(env: Env, st: State) {
    var b := Tally(st.log);
    b.acks == b.owed && Decided(b) && InOrder(env, b, st)
  }

  function NamedIn(r: Outcome): seq<Named> {
    match r
    case Ok(Some(Ready)) => [Named(Waiting, false)]
    case Ok(Some(StateChanged(state))) => [Named(state, false)]
    case _ => []
  }

  function ShotsIn(r: Outcome): seq<nat> {
    match r
    case Ok(Some(Shot(shot))) => [shot.shotId]
    case _ => []
  }

  /** The books once the result of handling a message has been reported. */
  function Announced(b: Books, r: Outcome): Books {
    b.(shots := b.shots.(reported := b.shots.reported + ShotsIn(r)),
       states := b.states.(reported := b.states.reported + NamedIn(r)))
  }

  lemma AnnouncedIs(b: Books, r: Outcome)
    ensures Announced(b, r) == if r.Ok? && r.value.Some? then Post(b, Emitted(r.value.value, false)) else b
  {
    assert b.states.reported + [] == b.states.reported && b.shots.reported + [] == b.shots.reported;
  }

  lemma CloseIdle(b: Books, f: Fate)
    requires Decided(b)
    ensures Close(b, f) == b
  {}

  /** A failed write leaves the books in order: what it costs was not reported before either. */
  lemma FailInOrder(env: Env, b: Books, st: State)
    requires InOrder(env, b, st) && !AllAccepted(env)
    ensures InOrder(env, Fail(b), st) && Decided(Fail(b))
  {
    LostShots(b.shots, st.recent);
    LostStates(b.states, st.lastState, st.pending);
  }

  /** What `r` reports is what becomes reportable once the acknowledgment is written. */
  predicate Promised(b: Books, pending: Option<Event>, r: Outcome) {
    ShotsDue(b.shots, ShotsIn(r)) && StatesDue(b.states, pending, NamedIn(r))
  }

  lemma PromiseKept(env: Env, b: Books, st: State, r: Outcome, acks: seq<Word>)
    requires InOrder(env, b, st) && Promised(b, st.pending, r)
    ensures var b' := Close(b.(acks := acks), Written); InOrder(env, Announced(b', r), st) && Decided(b')
  {
    WrittenShots(b.shots, st.recent, ShotsIn(r));
    WrittenStates(b.states, st.lastState, st.pending, NamedIn(r));
  }

  predicate Quiet(r: Outcome) { NamedIn(r) == [] && ShotsIn(r) == [] }

  lemma QuietPromised(env: Env, b: Books, st: State, r: Outcome)
    requires InOrder(env, b, st) && Decided(b) && Quiet(r)
    ensures Promised(b, st.pending, r)
  {
    ShotsIdle(b.shots, st.recent);
    StatesIdle(b.states, st.lastState, st.pending);
  }

  lemma QuietAnnounced(b: Books, r: Outcome)
    requires Quiet(r)
    ensures Announced(b, r) == b
  {
    assert b.states.reported + [] == b.states.reported && b.shots.reported + [] == b.shots.reported;
  }
}
