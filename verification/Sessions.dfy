/** What holds of every session, whichever writes fail: the statements a user of the client can rely on. */
module Sessions {
  import opened Wrappers
  import opened Bytes
  import opened Shots
  import opened ClientModel
  import opened Ledger
  import opened Accounting

  function BooksOf(env: Env, ops: seq<Op>): Books { Tally(Run(env, ops).log) }

  // ----- When nothing fails -----

  lemma {:induction false} FailedCounts(log: seq<Entry>)
    ensures Tally(log).counts.failed == 0 ==> NoneUnsent(log)
  {
    if log != [] {
      FailedCounts(log[..|log| - 1]);
    }
  }

  /** If every write succeeds, no frame goes unsent. */
  lemma NothingFails(env: Env, ops: seq<Op>)
    requires AllAccepted(env)
    ensures NoneUnsent(Run(env, ops).log)
  {
    RunBalanced(env, ops);
    FailedCounts(Run(env, ops).log);
  }

  // ----- Acknowledgments -----

  /** The messages that were handled and are owed an acknowledgment. */
  function HandledTypes(log: seq<Entry>): seq<Word> {
    if log == [] then []
    else
      var before := HandledTypes(log[..|log| - 1]);
      match log[|log| - 1]
      case Done(t) => if Ackable(t) then before + [t] else before
      case _ => before
  }

  lemma {:induction false} OwedIsHandled(log: seq<Entry>)
    requires NoneUnsent(log)
    ensures Tally(log).owed == HandledTypes(log)
  {
    if log != [] {
      OwedIsHandled(log[..|log| - 1]);
    }
  }

  /**
    Every acknowledgment owed is sent, exactly once, in the order the messages were handled, and no other is sent. Owed
    are those of the messages handled, and of device capabilities that were acknowledged but could not be answered.
   */
  lemma AckDiscipline(env: Env, ops: seq<Op>)
    ensures var b := BooksOf(env, ops); b.acks == b.owed
    ensures NoneUnsent(Run(env, ops).log) ==> BooksOf(env, ops).acks == HandledTypes(Run(env, ops).log)
  {
    RunBalanced(env, ops);
    if NoneUnsent(Run(env, ops).log) {
      OwedIsHandled(Run(env, ops).log);
    }
  }

  // ----- Requests -----

  /** Wake requests are tried for an answered subscription and for standby while active, and for nothing else. */
  lemma WakesBalance(env: Env, ops: seq<Op>)
    ensures var c := BooksOf(env, ops).counts; c.wakes == c.wakesOwed
  {
    RunBalanced(env, ops);
  }

  /** The k-th protobuf request tried, counted from 1, carries id k modulo 65536. */
  lemma RequestIdsCount(env: Env, ops: seq<Op>, k: nat)
    requires 1 <= k <= |BooksOf(env, ops).counts.ids|
    ensures BooksOf(env, ops).counts.ids[k - 1] == k % 0x1_0000
  {
    RunBalanced(env, ops);
    NumberedAt(BooksOf(env, ops).counts.ids, k);
  }

  // ----- States -----

  /** Whatever is queued is a Ready, and the very next poll returns it, reading nothing and changing nothing else. */
  lemma QueuedReadyIsNext(env: Env, ops: seq<Op>, rd: Read, now: nat)
    requires Run(env, ops).pending.Some?
    ensures var st := Run(env, ops); var (s, r) := Poll(env, st, rd, now);
      r == Ok(Some(Ready)) && s == st.(pending := None, log := st.log + [Emitted(Ready, true)])
  {
    RunBalanced(env, ops);
  }

  /** Two changes of state in a row name the same state only if the second is a queued Ready. */
  lemma ChangesAlternate(env: Env, ops: seq<Op>, i: nat)
    requires var n := BooksOf(env, ops).states.changes; i + 1 < |n| && n[i].state == n[i + 1].state
    ensures BooksOf(env, ops).states.changes[i + 1].queued
  {
    RunBalanced(env, ops);
    AlternatesAt(BooksOf(env, ops).states.changes, i);
  }

  /**
    The states reported are exactly those of the changes whose messages had all their writes go through, and every
    queued Ready, in order; a queued Ready still waits for the next poll.
   */
  lemma StatesReported(env: Env, ops: seq<Op>)
    ensures var b := BooksOf(env, ops).states;
      && |b.fates| == |b.changes|
      && b.reported + Waits(Run(env, ops).pending) == Reports(b.changes, b.fates)
  {
    RunBalanced(env, ops);
  }

  predicate IsReported(changes: seq<Named>, fates: seq<Fate>, k: nat)
    requires k < |changes| == |fates|
  {
    changes[k].queued || fates[k] == Written
  }

  /** Where in the changes each report comes from. */
  function Origins(changes: seq<Named>, fates: seq<Fate>): seq<nat>
    requires |changes| == |fates|
  {
    if changes == [] then []
    else
      var n := |changes| - 1;
      Origins(changes[..n], fates[..n]) + (if IsReported(changes, fates, n) then [n] else [])
  }

  lemma {:induction false} OriginAt(changes: seq<Named>, fates: seq<Fate>, i: nat)
    requires |changes| == |fates| && i < |Origins(changes, fates)|
    ensures |Reports(changes, fates)| == |Origins(changes, fates)|
    ensures var k := Origins(changes, fates)[i];
      k < |changes| && IsReported(changes, fates, k) && Reports(changes, fates)[i] == changes[k]
  {
    var n := |changes| - 1;
    if i < |Origins(changes[..n], fates[..n])| {
      OriginAt(changes[..n], fates[..n], i);
    }
    SameLength(changes[..n], fates[..n]);
  }

  lemma {:induction false} SameLength(changes: seq<Named>, fates: seq<Fate>)
    requires |changes| == |fates|
    ensures |Reports(changes, fates)| == |Origins(changes, fates)|
  {
    if changes != [] {
      SameLength(changes[..|changes| - 1], fates[..|changes| - 1]);
    }
  }

  /** After the last report, nothing more is reported. */
  lemma {:induction false} LastOrigin(changes: seq<Named>, fates: seq<Fate>, k: nat)
    requires |changes| == |fates| && k < |changes| && IsReported(changes, fates, k)
    ensures var o := Origins(changes, fates); o != [] && k <= o[|o| - 1]
  {
    var n := |changes| - 1;
    if k < n {
      LastOrigin(changes[..n], fates[..n], k);
      OriginAt(changes[..n], fates[..n], |Origins(changes[..n], fates[..n])| - 1);
    }
  }

  /** Between two reports in a row, nothing is reported. */
  lemma {:induction false} NextOrigin(changes: seq<Named>, fates: seq<Fate>, i: nat, k: nat)
    requires |changes| == |fates| && i + 1 < |Origins(changes, fates)|
    ensures var o := Origins(changes, fates); o[i] < o[i + 1] < |changes|
    ensures var o := Origins(changes, fates); o[i] < k < o[i + 1] ==> !IsReported(changes, fates, k)
  {
    var n := |changes| - 1;
    var o := Origins(changes[..n], fates[..n]);
    OriginAt(changes, fates, i + 1);
    if i + 1 < |o| {
      NextOrigin(changes[..n], fates[..n], i, k);
    } else {
      OriginAt(changes[..n], fates[..n], i);
      if o[i] < k < n && IsReported(changes, fates, k) {
        LastOrigin(changes[..n], fates[..n], k);
      }
    }
  }

  /**
    A lost change undone: a change reported at `a`, then only changes whose messages failed a write, at least one of
    them, then at `c` a change back to the state reported at `a`, which is reported again.
   */
  predicate Undone(changes: seq<Named>, fates: seq<Fate>, a: nat, c: nat)
    requires |changes| == |fates|
  {
    && a + 1 < c < |changes|
    && IsReported(changes, fates, a) && IsReported(changes, fates, c)
    && changes[c].state == changes[a].state && !changes[c].queued
    && forall k :: a < k < c ==> fates[k] == Lost && !changes[k].queued
  }

  /** The reports at `i` and `i + 1` name one state, and the second is not a queued Ready. */
  predicate Repeats(n: seq<Named>, i: nat) {
    i + 1 < |n| && n[i].state == n[i + 1].state && !n[i + 1].queued
  }

  /** Where two reports in a row come from, exactly when they name one state, the second unqueued. */
  lemma RepeatsBetween(changes: seq<Named>, fates: seq<Fate>, i: nat)
    requires |changes| == |fates| && Alternates(changes) && AllDecided(fates) && i + 1 < |Origins(changes, fates)|
    ensures var o := Origins(changes, fates);
      Repeats(Reports(changes, fates), i) <==> Undone(changes, fates, o[i], o[i + 1])
  {
    var o := Origins(changes, fates);
    SameLength(changes, fates);
    OriginAt(changes, fates, i);
    OriginAt(changes, fates, i + 1);
    NextOrigin(changes, fates, i, o[i]);
    if Repeats(Reports(changes, fates), i) {
      NothingBetween(changes, fates, i, o[i], o[i + 1]);
    }
  }

  /** Between them there are only lost changes, and at least one. */
  lemma NothingBetween(changes: seq<Named>, fates: seq<Fate>, i: nat, a: nat, c: nat)
    requires |changes| == |fates| && Alternates(changes) && AllDecided(fates) && i + 1 < |Origins(changes, fates)|
    requires a == Origins(changes, fates)[i] && c == Origins(changes, fates)[i + 1] && a < c < |changes|
    requires changes[a].state == changes[c].state && !changes[c].queued
    ensures a + 1 < c && forall k :: a < k < c ==> fates[k] == Lost && !changes[k].queued
  {
    if a + 1 == c {
      AlternatesAt(changes, a);
    }
    forall k | a < k < c ensures fates[k] == Lost && !changes[k].queued {
      NextOrigin(changes, fates, i, k);
      DecidedAt(fates, k);
    }
  }

  /** Two reports in a row name one state, the second unqueued, only because changes between them failed a write. */
  lemma RepeatMeansLost(changes: seq<Named>, fates: seq<Fate>, i: nat) returns (a: nat, c: nat)
    requires |changes| == |fates| && Alternates(changes) && AllDecided(fates) && Repeats(Reports(changes, fates), i)
    ensures Undone(changes, fates, a, c)
    ensures i + 1 < |Origins(changes, fates)| && a == Origins(changes, fates)[i] && c == Origins(changes, fates)[i + 1]
  {
    SameLength(changes, fates);
    RepeatsBetween(changes, fates, i);
    a, c := Origins(changes, fates)[i], Origins(changes, fates)[i + 1];
  }

  /** And whenever such changes are undone, that happens. */
  lemma LostMeansRepeat(changes: seq<Named>, fates: seq<Fate>, a: nat, c: nat) returns (i: nat)
    requires |changes| == |fates| && Undone(changes, fates, a, c)
    ensures Repeats(Reports(changes, fates), i)
    ensures i + 1 < |Origins(changes, fates)| && a == Origins(changes, fates)[i] && c == Origins(changes, fates)[i + 1]
  {
    i := IndexOf(changes, fates, a);
    NextAfter(changes, fates, a, c, i);
    OriginAt(changes, fates, i);
    OriginAt(changes, fates, i + 1);
  }

  lemma {:induction false} IndexOf(changes: seq<Named>, fates: seq<Fate>, a: nat) returns (i: nat)
    requires |changes| == |fates| && a < |changes| && IsReported(changes, fates, a)
    ensures var o := Origins(changes, fates); i < |o| && o[i] == a
  {
    var n := |changes| - 1;
    if a < n {
      i := IndexOf(changes[..n], fates[..n], a);
    } else {
      i := |Origins(changes, fates)| - 1;
    }
  }

  lemma NextAfter(changes: seq<Named>, fates: seq<Fate>, a: nat, c: nat, i: nat)
    requires |changes| == |fates| && a < c < |changes| && IsReported(changes, fates, c)
    requires forall k :: a < k < c ==> !IsReported(changes, fates, k)
    requires i < |Origins(changes, fates)| && Origins(changes, fates)[i] == a
    ensures i + 1 < |Origins(changes, fates)| && Origins(changes, fates)[i + 1] == c
  {
    var o := Origins(changes, fates);
    LastOrigin(changes, fates, c);
    assert i + 1 < |o|;
    OriginAt(changes, fates, i + 1);
    NextOrigin(changes, fates, i, c);
  }

  /**
    In any session, the reports at `i` and `i + 1` name one state without the second being queued exactly if the lost
    changes between the two they come from are undone.
   */
  lemma RepeatsByPosition(env: Env, ops: seq<Op>, i: nat)
    requires i + 1 < |BooksOf(env, ops).states.reported|
    ensures var b := BooksOf(env, ops).states;
      && |b.fates| == |b.changes| && i + 1 < |Origins(b.changes, b.fates)|
      && var o := Origins(b.changes, b.fates);
         (Repeats(b.reported, i) <==> Undone(b.changes, b.fates, o[i], o[i + 1]))
  {
    var b := BooksOf(env, ops).states;
    RunBalanced(env, ops);
    SameLength(b.changes, b.fates);
    QueuedRepeatsNothing(b.reported, Waits(Run(env, ops).pending), Reports(b.changes, b.fates), i);
    RepeatsBetween(b.changes, b.fates, i);
  }

  /** So it happens somewhere in a session exactly if a lost change is undone somewhere in it. */
  lemma RepeatsExactly(env: Env, ops: seq<Op>)
    ensures var b := BooksOf(env, ops).states;
      && |b.fates| == |b.changes|
      && ((exists i: nat :: Repeats(b.reported, i)) <==> (exists a: nat, c: nat :: Undone(b.changes, b.fates, a, c)))
  {
    var b := BooksOf(env, ops).states;
    RunBalanced(env, ops);
    var reports := Reports(b.changes, b.fates);
    if i: nat :| Repeats(b.reported, i) {
      QueuedRepeatsNothing(b.reported, Waits(Run(env, ops).pending), reports, i);
      var a, c := RepeatMeansLost(b.changes, b.fates, i);
    }
    if a: nat, c: nat :| Undone(b.changes, b.fates, a, c) {
      var i := LostMeansRepeat(b.changes, b.fates, a, c);
      QueuedRepeatsNothing(b.reported, Waits(Run(env, ops).pending), reports, i);
    }
  }

  /** The Ready that still waits makes no difference. */
  lemma QueuedRepeatsNothing(reported: seq<Named>, waiting: seq<Named>, reports: seq<Named>, i: nat)
    requires reports == reported + waiting && (waiting == [] || waiting == [Named(Waiting, true)])
    ensures Repeats(reported, i) <==> Repeats(reports, i)
  {}

  lemma {:induction false} LostMeansFailed(log: seq<Entry>)
    ensures Tally(log).counts.failed == 0 ==> Lost !in Tally(log).states.fates
  {
    if log != [] {
      LostMeansFailed(log[..|log| - 1]);
    }
  }

  lemma {:induction false} UnsentCounts(log: seq<Entry>)
    requires NoneUnsent(log)
    ensures Tally(log).counts.failed == 0
  {
    if log != [] {
      UnsentCounts(log[..|log| - 1]);
    }
  }

  /** In particular, in a session in which no frame went unsent, reports alternate. */
  lemma StateReportsAlternate(env: Env, ops: seq<Op>, i: nat)
    requires NoneUnsent(Run(env, ops).log)
    ensures !Repeats(BooksOf(env, ops).states.reported, i)
  {
    var b := BooksOf(env, ops).states;
    RunBalanced(env, ops);
    UnsentCounts(Run(env, ops).log);
    LostMeansFailed(Run(env, ops).log);
    if Repeats(b.reported, i) {
      SomeLost(b.changes, b.fates, i);
    }
  }

  lemma SomeLost(changes: seq<Named>, fates: seq<Fate>, i: nat)
    requires |changes| == |fates| && Alternates(changes) && AllDecided(fates) && Repeats(Reports(changes, fates), i)
    ensures Lost in fates
  {
    var a, c := RepeatMeansLost(changes, fates, i);
    assert fates[a + 1] == Lost;
  }

  // ----- Shots -----

  /** The times of a session's polls do not go back. */
  predicate TimesInOrder(ops: seq<Op>) {
    forall i, j :: 0 <= i < j < |ops| && ops[i].DoPoll? && ops[j].DoPoll? ==> ops[i].now <= ops[j].now
  }

  /** Every poll of the session was at or before `now`. */
  predicate PolledBy(ops: seq<Op>, now: nat) {
    forall i :: 0 <= i < |ops| && ops[i].DoPoll? ==> ops[i].now <= now
  }

  function ArrivalsOf(env: Env, ops: seq<Op>): seq<Arrival> { BooksOf(env, ops).shots.arrivals }

  lemma OneLaterInOrder(a: seq<Arrival>, b: seq<Arrival>, now: nat)
    requires OneLater(a, b, now) && InTimeOrder(a) && UpTo(a, now)
    ensures InTimeOrder(b) && UpTo(b, now)
  {
    if b != a {
      assert b == a + [b[|b| - 1]];
    }
  }

  lemma InitTimes(ops: seq<Op>, now: nat, m: nat)
    requires ops != [] && TimesInOrder(ops) && PolledBy(ops, now)
    requires m == if ops[|ops| - 1].DoPoll? then ops[|ops| - 1].now else now
    ensures TimesInOrder(ops[..|ops| - 1]) && PolledBy(ops[..|ops| - 1], m) && m <= now
  {}

  lemma {:induction false} ArrivalsInOrder(env: Env, ops: seq<Op>, now: nat)
    requires TimesInOrder(ops) && PolledBy(ops, now)
    ensures InTimeOrder(ArrivalsOf(env, ops)) && UpTo(ArrivalsOf(env, ops), now)
  {
    if ops != [] {
      var n := |ops| - 1;
      var m := if ops[n].DoPoll? then ops[n].now else now;
      InitTimes(ops, now, m);
      RunBalanced(env, ops[..n]);
      ArrivalsInOrder(env, ops[..n], m);
      OpInOrder(env, Run(env, ops[..n]), ops[n], Run(env, ops), m, now);
    }
  }

  lemma OpInOrder(env: Env, st: State, op: Op, s: State, m: nat, now: nat)
    requires Balanced(env, st) && s == Apply(env, st, op) && m <= now && (op.DoPoll? ==> m == op.now)
    requires var a := Tally(st.log).shots.arrivals; InTimeOrder(a) && UpTo(a, m)
    ensures var a := Tally(s.log).shots.arrivals; InTimeOrder(a) && UpTo(a, now)
  {
    OpArrivals(env, st, op);
    OneLaterInOrder(Tally(st.log).shots.arrivals, Tally(s.log).shots.arrivals, m);
  }

  lemma OpArrivals(env: Env, st: State, op: Op)
    requires Balanced(env, st)
    ensures var a, b := Tally(st.log).shots.arrivals, Tally(Apply(env, st, op).log).shots.arrivals;
      if op.DoPoll? then OneLater(a, b, op.now) else b == a
  {
    match op {
      case Start(_) =>
      case DoPoll(rd, now) => PollBooks(env, st, rd, now);
      case SetEnvironment(pb) => EnvironmentBooks(env, st, pb);
    }
  }

  /** The client's pruned cache is that of the whole session's arrivals, and so the fresh part of all it accepted. */
  lemma CacheOfSession(env: Env, ops: seq<Op>, now: nat)
    requires TimesInOrder(ops) && PolledBy(ops, now)
    ensures var a := ArrivalsOf(env, ops);
      && Run(env, ops).recent == Cache(a)
      && (a != [] ==> Run(env, ops).recent == Prune(Accepted(a), a[|a| - 1].at))
  {
    RunBalanced(env, ops);
    ArrivalsInOrder(env, ops, now);
    CacheIsFreshHistory(ArrivalsOf(env, ops));
  }

  /** An accepted shot is 60 seconds later than every accepted one with its id. */
  lemma LateEnough(before: seq<Arrival>, a: Arrival, all: seq<Arrival>, earlier: Arrival)
    requires all == before + [a] && InTimeOrder(all) && Offer(Cache(before), a).1
    requires earlier in Accepted(before) && earlier.id == a.id
    ensures a.at - earlier.at >= SHOT_DEDUP_WINDOW_SECS * NANOS
  {
    AcceptedIffNotRecent(before, a);
  }

  /** Two reported shots with the same id are at least 60 seconds apart. */
  lemma {:induction false} ReportedApart(arrivals: seq<Arrival>, fates: seq<Fate>, i: nat, j: nat)
    requires |arrivals| == |fates| && InTimeOrder(arrivals) && i < j < |ReportedShots(arrivals, fates)|
    requires ReportedShots(arrivals, fates)[i].id == ReportedShots(arrivals, fates)[j].id
    ensures ReportedShots(arrivals, fates)[j].at - ReportedShots(arrivals, fates)[i].at >=
      SHOT_DEDUP_WINDOW_SECS * NANOS
  {
    var n := |arrivals| - 1;
    var before, a := arrivals[..n], arrivals[n];
    var r := ReportedShots(before, fates[..n]);
    if j < |r| {
      PrefixInTimeOrder(arrivals, n);
      ReportedApart(before, fates[..n], i, j);
    } else {
      ReportedIsAccepted(before, fates[..n], i);
      LateEnough(before, a, arrivals, r[i]);
    }
  }

  lemma {:induction false} ReportedIsAccepted(arrivals: seq<Arrival>, fates: seq<Fate>, i: nat)
    requires |arrivals| == |fates| && i < |ReportedShots(arrivals, fates)|
    ensures ReportedShots(arrivals, fates)[i] in Accepted(arrivals)
  {
    var n := |arrivals| - 1;
    if i < |ReportedShots(arrivals[..n], fates[..n])| {
      ReportedIsAccepted(arrivals[..n], fates[..n], i);
    }
  }

  /**
    Over a whole session the client reports exactly the shots that no accepted report of the same shot preceded by less
    than 60 seconds and whose acknowledgment was written; equal ids reported are at least 60 seconds apart.
   */
  lemma ShotsReported(env: Env, ops: seq<Op>, now: nat)
    requires TimesInOrder(ops) && PolledBy(ops, now)
    ensures var b := BooksOf(env, ops).shots;
      && InTimeOrder(b.arrivals) && |b.fates| == |b.arrivals| && AllDecided(b.fates)
      && b.reported == IdsOf(ReportedShots(b.arrivals, b.fates))
      && (forall i, j :: 0 <= i < j < |b.reported| && b.reported[i] == b.reported[j] ==>
            ReportedShots(b.arrivals, b.fates)[j].at - ReportedShots(b.arrivals, b.fates)[i].at >=
              SHOT_DEDUP_WINDOW_SECS * NANOS)
  {
    RunBalanced(env, ops);
    ArrivalsInOrder(env, ops, now);
    var b := BooksOf(env, ops).shots;
    forall i, j | 0 <= i < j < |b.reported| && b.reported[i] == b.reported[j]
      ensures ReportedShots(b.arrivals, b.fates)[j].at - ReportedShots(b.arrivals, b.fates)[i].at >=
        SHOT_DEDUP_WINDOW_SECS * NANOS
    {
      IdsOfAt(ReportedShots(b.arrivals, b.fates), i);
      IdsOfAt(ReportedShots(b.arrivals, b.fates), j);
      ReportedApart(b.arrivals, b.fates, i, j);
    }
  }

  /** The history accepted arrival `k`. */
  predicate AcceptedAt(arrivals: seq<Arrival>, k: nat)
    requires k < |arrivals|
  {
    Offer(Cache(arrivals[..k]), arrivals[k]).1
  }

  lemma AcceptedBefore(arrivals: seq<Arrival>, k: nat, n: nat)
    requires k < n <= |arrivals|
    ensures AcceptedAt(arrivals[..n], k) == AcceptedAt(arrivals, k)
  {
    assert arrivals[..n][..k] == arrivals[..k];
  }

  lemma {:induction false} AcceptedStays(arrivals: seq<Arrival>, k: nat)
    requires k < |arrivals| && AcceptedAt(arrivals, k)
    ensures arrivals[k] in Accepted(arrivals)
  {
    var n := |arrivals| - 1;
    var accepted := AcceptedAt(arrivals, n);
    AcceptedLast(arrivals, arrivals[..n], arrivals[n], accepted);
    if k < n {
      AcceptedBefore(arrivals, k, n);
      AcceptedStays(arrivals[..n], k);
    }
  }

  lemma AcceptedLast(arrivals: seq<Arrival>, before: seq<Arrival>, a: Arrival, accepted: bool)
    requires arrivals != [] && before == arrivals[..|arrivals| - 1] && a == arrivals[|arrivals| - 1]
    requires accepted == Offer(Cache(before), a).1
    ensures forall x :: x in Accepted(before) ==> x in Accepted(arrivals)
    ensures accepted ==> a in Accepted(arrivals)
  {
    OneArrival(arrivals, before, a);
  }

  lemma OrderedBefore(arrivals: seq<Arrival>, n: nat)
    requires InTimeOrder(arrivals) && n <= |arrivals|
    ensures InTimeOrder(arrivals[..n])
  {}

  /** Once a shot is accepted, no other with its id is, for 60 seconds, whatever arrives meanwhile. */
  lemma {:induction false} ShutOut(arrivals: seq<Arrival>, k: nat, j: nat)
    requires InTimeOrder(arrivals) && k < j < |arrivals| && AcceptedAt(arrivals, k)
    requires arrivals[j].id == arrivals[k].id && arrivals[j].at - arrivals[k].at < SHOT_DEDUP_WINDOW_SECS * NANOS
    ensures !AcceptedAt(arrivals, j)
  {
    var n := |arrivals| - 1;
    AcceptedBefore(arrivals, k, n);
    if j < n {
      OrderedBefore(arrivals, n);
      ShutOut(arrivals[..n], k, j);
      AcceptedBefore(arrivals, j, n);
    } else {
      AcceptedStays(arrivals[..n], k);
      NotAgain(arrivals[..n], arrivals[n], arrivals, arrivals[k]);
    }
  }

  lemma NotAgain(before: seq<Arrival>, a: Arrival, all: seq<Arrival>, earlier: Arrival)
    requires all == before + [a] && InTimeOrder(all) && earlier in Accepted(before)
    requires earlier.id == a.id && a.at - earlier.at < SHOT_DEDUP_WINDOW_SECS * NANOS
    ensures !Offer(Cache(before), a).1
  {
    if Offer(Cache(before), a).1 {
      LateEnough(before, a, all, earlier);
    }
  }

  /** The arrivals that are reported, by position. */
  predicate ReportedAt(b: ShotBook, k: nat)
    requires k < |b.arrivals| == |b.fates|
  {
    AcceptedAt(b.arrivals, k) && b.fates[k] == Written
  }

  /**
    So in any session a shot that was accepted but whose acknowledgment failed is lost: neither it nor any shot with
    its id that arrives within 60 seconds is reported, whatever arrives meanwhile.
   */
  lemma UnackedShotIsLost(env: Env, ops: seq<Op>, now: nat, k: nat, j: nat)
    requires TimesInOrder(ops) && PolledBy(ops, now)
    requires var b := BooksOf(env, ops).shots;
      && |b.fates| == |b.arrivals| && k <= j < |b.arrivals| && AcceptedAt(b.arrivals, k) && b.fates[k] == Lost
      && b.arrivals[j].id == b.arrivals[k].id && b.arrivals[j].at - b.arrivals[k].at < SHOT_DEDUP_WINDOW_SECS * NANOS
    ensures !ReportedAt(BooksOf(env, ops).shots, j)
  {
    ArrivalsInOrder(env, ops, now);
    if k < j {
      ShutOut(ArrivalsOf(env, ops), k, j);
    }
  }
}
