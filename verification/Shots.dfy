/** Shot deduplication: the pruned cache decides as the full history of accepted shots would. */
module Shots {
  const SHOT_DEDUP_WINDOW_SECS: nat := 60

  const NANOS: nat := 1_000_000_000

  datatype Arrival = Arrival(id: nat, at: nat)

  /** Whole seconds since `t`, as the monotonic clock reports them: never negative. */
  function ElapsedSecs(now: nat, t: nat): nat {
    if now < t then 0 else (now - t) / NANOS
  }

  predicate Fresh(now: nat, t: nat) { ElapsedSecs(now, t) < SHOT_DEDUP_WINDOW_SECS }

  function Prune(cache: seq<Arrival>, now: nat): seq<Arrival> {
    if cache == [] then []
    else
      var a := cache[|cache| - 1];
      Prune(cache[..|cache| - 1], now) + (if Fresh(now, a.at) then [a] else [])
  }

  predicate Knows(cache: seq<Arrival>, id: nat) {
    exists i :: 0 <= i < |cache| && cache[i].id == id
  }

  /** The new cache, and whether the shot is accepted. */
  function Offer(cache: seq<Arrival>, a: Arrival): (seq<Arrival>, bool) {
    var c := Prune(cache, a.at);
    if Knows(c, a.id) then (c, false) else (c + [a], true)
  }

  // ----- Runs -----

  /** The cache after a sequence of arrivals. */
  function Cache(arrivals: seq<Arrival>): seq<Arrival> {
    if arrivals == [] then [] else Offer(Cache(arrivals[..|arrivals| - 1]), arrivals[|arrivals| - 1]).0
  }

  /** Every arrival ever accepted, in order. */
  function Accepted(arrivals: seq<Arrival>): seq<Arrival> {
    if arrivals == [] then []
    else
      var before, a := arrivals[..|arrivals| - 1], arrivals[|arrivals| - 1];
      Accepted(before) + (if Offer(Cache(before), a).1 then [a] else [])
  }

  predicate InTimeOrder(s: seq<Arrival>) {
    forall i, j :: 0 <= i < j < |s| ==> s[i].at <= s[j].at
  }

  predicate UpTo(s: seq<Arrival>, now: nat) {
    forall i :: 0 <= i < |s| ==> s[i].at <= now
  }

  lemma FreshMeans(now: nat, t: nat)
    requires t <= now
    ensures Fresh(now, t) <==> now - t < SHOT_DEDUP_WINDOW_SECS * NANOS
  {}

  lemma PrunePush(s: seq<Arrival>, a: Arrival, now: nat)
    ensures Prune(s + [a], now) == Prune(s, now) + (if Fresh(now, a.at) then [a] else [])
  {
    assert (s + [a])[..|s|] == s;
  }

  lemma PrefixInTimeOrder(s: seq<Arrival>, k: nat)
    requires InTimeOrder(s) && k <= |s|
    ensures InTimeOrder(s[..k])
    ensures forall i :: 0 <= i < k < |s| ==> s[..k][i].at <= s[k].at
  {}

  lemma {:induction false} PruneTwice(s: seq<Arrival>, n: nat, m: nat)
    requires n <= m && UpTo(s, n)
    ensures Prune(Prune(s, n), m) == Prune(s, m)
  {
    if s != [] {
      var k := |s| - 1;
      PruneTwice(s[..k], n, m);
      FreshMeans(n, s[k].at);
      FreshMeans(m, s[k].at);
      PrunePush(Prune(s[..k], n), s[k], m);
      assert Prune(s[..k], n) + [] == Prune(s[..k], n);
      assert Prune(s[..k], m) + [] == Prune(s[..k], m);
    }
  }

  lemma {:induction false} PruneKeeps(s: seq<Arrival>, now: nat)
    ensures forall a :: a in Prune(s, now) <==> a in s && Fresh(now, a.at)
  {
    if s != [] {
      var k := |s| - 1;
      PruneKeeps(s[..k], now);
      assert s == s[..k] + [s[k]];
    }
  }

  lemma {:induction false} PruneInOrder(s: seq<Arrival>, now: nat)
    requires InTimeOrder(s)
    ensures InTimeOrder(Prune(s, now))
  {
    if s != [] {
      var k := |s| - 1;
      var p := Prune(s[..k], now);
      PrefixInTimeOrder(s, k);
      PruneInOrder(s[..k], now);
      PruneKeeps(s[..k], now);
      forall i | 0 <= i < |p| ensures p[i].at <= s[k].at {
        assert p[i] in s[..k];
      }
      if Fresh(now, s[k].at) {
        assert Prune(s, now) == p + [s[k]];
      } else {
        assert Prune(s, now) == p;
      }
    }
  }

  lemma {:induction false} AcceptedShape(arrivals: seq<Arrival>)
    requires InTimeOrder(arrivals)
    ensures InTimeOrder(Accepted(arrivals))
    ensures arrivals != [] ==> UpTo(Accepted(arrivals), arrivals[|arrivals| - 1].at)
    ensures arrivals == [] ==> Accepted(arrivals) == []
  {
    if arrivals != [] {
      var k := |arrivals| - 1;
      AcceptedShape(arrivals[..k]);
      if k > 0 {
        assert arrivals[..k][k - 1].at <= arrivals[k].at;
      }
    }
  }

  /** If the cache and the history agree on what is fresh when a shot arrives, they agree once it has been offered. */
  lemma OfferKeepsAgreement(cache: seq<Arrival>, history: seq<Arrival>, a: Arrival)
    requires Prune(cache, a.at) == Prune(history, a.at)
    ensures var (c, accepted) := Offer(cache, a);
      c == Prune(if accepted then history + [a] else history, a.at)
  {
    PrunePush(history, a, a.at);
  }

  lemma OneArrival(arrivals: seq<Arrival>, before: seq<Arrival>, a: Arrival)
    requires arrivals != [] && before == arrivals[..|arrivals| - 1] && a == arrivals[|arrivals| - 1]
    ensures var (c, accepted) := Offer(Cache(before), a);
      Cache(arrivals) == c && Accepted(arrivals) == if accepted then Accepted(before) + [a] else Accepted(before)
  {}

  /** With time that does not go back, the cache is the fresh part of the full history. */
  lemma {:induction false} CacheIsFreshHistory(arrivals: seq<Arrival>)
    requires InTimeOrder(arrivals)
    ensures arrivals == [] ==> Cache(arrivals) == [] == Accepted(arrivals)
    ensures arrivals != [] ==> Cache(arrivals) == Prune(Accepted(arrivals), arrivals[|arrivals| - 1].at)
  {
    if arrivals != [] {
      var k := |arrivals| - 1;
      var before, a := arrivals[..k], arrivals[k];
      PrefixInTimeOrder(arrivals, k);
      CacheIsFreshHistory(before);
      FreshAtArrival(before, a);
      OneArrival(arrivals, before, a);
      OfferKeepsAgreement(Cache(before), Accepted(before), a);
    }
  }

  lemma FreshAtArrival(before: seq<Arrival>, a: Arrival)
    requires InTimeOrder(before) && UpTo(before, a.at)
    requires before == [] ==> Cache(before) == [] == Accepted(before)
    requires before != [] ==> Cache(before) == Prune(Accepted(before), before[|before| - 1].at)
    ensures Prune(Cache(before), a.at) == Prune(Accepted(before), a.at)
  {
    AcceptedShape(before);
    if before != [] {
      PruneTwice(Accepted(before), before[|before| - 1].at, a.at);
    }
  }

  lemma BeforeArrival(before: seq<Arrival>, a: Arrival)
    requires InTimeOrder(before + [a])
    ensures InTimeOrder(before) && UpTo(Accepted(before), a.at)
    ensures Prune(Cache(before), a.at) == Prune(Accepted(before), a.at)
  {
    var k := |before|;
    PrefixInTimeOrder(before + [a], k);
    assert (before + [a])[..k] == before;
    CacheIsFreshHistory(before);
    AcceptedShape(before);
    FreshAtArrival(before, a);
  }

  /** A shot is accepted exactly when no shot with its id was accepted less than 60 seconds before. */
  lemma AcceptedIffNotRecent(before: seq<Arrival>, a: Arrival)
    requires InTimeOrder(before + [a])
    ensures Offer(Cache(before), a).1 <==>
      forall b :: b in Accepted(before) && b.id == a.id ==> a.at - b.at >= SHOT_DEDUP_WINDOW_SECS * NANOS
  {
    BeforeArrival(before, a);
    var c := Prune(Cache(before), a.at);
    assert c == Prune(Accepted(before), a.at);
    PruneKeeps(Accepted(before), a.at);
    forall b | b in Accepted(before) ensures Fresh(a.at, b.at) <==> a.at - b.at < SHOT_DEDUP_WINDOW_SECS * NANOS {
      FreshMeans(a.at, b.at);
    }
    if Knows(c, a.id) {
      var i :| 0 <= i < |c| && c[i].id == a.id;
      assert c[i] in c;
    }
    if b :| b in Accepted(before) && b.id == a.id && a.at - b.at < SHOT_DEDUP_WINDOW_SECS * NANOS {
      assert b in c;
    }
  }

  /** Two accepted shots with the same id are at least 60 seconds apart. */
  lemma {:induction false} AcceptedApart(arrivals: seq<Arrival>, i: nat, j: nat)
    requires InTimeOrder(arrivals) && i < j < |Accepted(arrivals)|
    requires Accepted(arrivals)[i].id == Accepted(arrivals)[j].id
    ensures Accepted(arrivals)[j].at - Accepted(arrivals)[i].at >= SHOT_DEDUP_WINDOW_SECS * NANOS
  {
    var k := |arrivals| - 1;
    var before, a := arrivals[..k], arrivals[k];
    assert arrivals == before + [a];
    if j < |Accepted(before)| {
      AcceptedApart(before, i, j);
    } else {
      AcceptedIffNotRecent(before, a);
      assert Accepted(before)[i] in Accepted(before);
    }
  }

  predicate DistinctIds(s: seq<Arrival>) {
    forall i, j :: 0 <= i < j < |s| ==> s[i].id != s[j].id
  }

  /** The cache never holds two shots with one id, and is in time order. */
  lemma CacheDistinct(arrivals: seq<Arrival>)
    requires InTimeOrder(arrivals)
    ensures InTimeOrder(Cache(arrivals)) && DistinctIds(Cache(arrivals))
  {
    if arrivals != [] {
      var acc, now := Accepted(arrivals), arrivals[|arrivals| - 1].at;
      CacheIsFreshHistory(arrivals);
      AcceptedShape(arrivals);
      PruneInOrder(acc, now);
      forall i, j | 0 <= i < j < |acc| && acc[i].id == acc[j].id ensures !Fresh(now, acc[i].at) {
        AcceptedApart(arrivals, i, j);
        FreshMeans(now, acc[i].at);
      }
      DistinctWhenFresh(acc, now);
    }
  }

  lemma {:induction false} DistinctWhenFresh(s: seq<Arrival>, now: nat)
    requires forall i, j :: 0 <= i < j < |s| && s[i].id == s[j].id ==> !Fresh(now, s[i].at)
    ensures DistinctIds(Prune(s, now))
  {
    if s != [] {
      var k := |s| - 1;
      var c := Prune(s[..k], now);
      DistinctWhenFresh(s[..k], now);
      PruneKeeps(s[..k], now);
      if Fresh(now, s[k].at) {
        forall i | 0 <= i < |c| ensures c[i].id != s[k].id {
          assert c[i] in c;
          var m :| 0 <= m < k && s[..k][m] == c[i];
          assert s[m] == c[i];
        }
        assert Prune(s, now) == c + [s[k]];
      } else {
        assert Prune(s, now) == c;
      }
    }
  }
}
