/** The sliding-window rate limiter, against the full log of accepted requests. */
module RateLimit {
  import opened Prelude

  const WINDOW_SEC: Time := 60.0
  const EXEMPT: set<string> := {"/health", "/docs", "/openapi.json"}
  const DESKTOP_PREFIX: string := "/desktop/"

  /** Three paths as they are, and everything below the desktop pages. */
  predicate Exempt(path: string)
    ensures Exempt(path) <==> path == "/health" || path == "/docs" || path == "/openapi.json" || exists rest :: path == "/desktop/" + rest
  {
    assert DESKTOP_PREFIX <= path ==> path == "/desktop/" + path[|DESKTOP_PREFIX|..];
    path in EXEMPT || DESKTOP_PREFIX <= path
  }

  type ClientPath = (string, string)

  /** `[t for t in hits if now - t < 60]` */
  function Recent(hits: seq<Time>, now: Time): (kept: seq<Time>)
    ensures |kept| <= |hits|
  {
    if hits == [] then []
    else if now - hits[0] < WINDOW_SEC then [hits[0]] + Recent(hits[1..], now)
    else Recent(hits[1..], now)
  }

  /** Non-decreasing. */
  ghost predicate Ordered(log: seq<Time>) {
    forall i, j :: 0 <= i < j < |log| ==> log[i] <= log[j]
  }

  // ----- the window of an ordered log -----

  /** How many entries at the end of the log are less than a minute old. */
  function RecentCount(log: seq<Time>, now: Time): (n: nat)
    ensures n <= |log|
  {
    |Recent(log, now)|
  }

  lemma {:induction false} RecentIsSuffix(log: seq<Time>, now: Time)
    requires Ordered(log)
    ensures Recent(log, now) == log[|log| - RecentCount(log, now)..]
    ensures forall i :: 0 <= i < |log| ==> (now - log[i] < WINDOW_SEC <==> |log| - RecentCount(log, now) <= i)
  {
    if log != [] {
      RecentIsSuffix(log[1..], now);
      if now - log[0] < WINDOW_SEC {
        RecentKeepsAll(log, now);
      }
    }
  }

  lemma {:induction false} RecentKeepsAll(log: seq<Time>, now: Time)
    requires forall i :: 0 <= i < |log| ==> now - log[i] < WINDOW_SEC
    ensures Recent(log, now) == log
  {
    if log != [] {
      RecentKeepsAll(log[1..], now);
    }
  }

  /** An entry that one request found too old, every later one does too. */
  lemma {:induction false} RecentTwice(log: seq<Time>, now: Time, later: Time)
    requires now <= later
    ensures Recent(Recent(log, now), later) == Recent(log, later)
  {
    if log != [] {
      RecentTwice(log[1..], now, later);
      if now - log[0] < WINDOW_SEC {
        assert ([log[0]] + Recent(log[1..], now))[1..] == Recent(log[1..], now);
      }
    }
  }

  lemma {:induction false} RecentAppends(log: seq<Time>, t: Time, now: Time)
    ensures Recent(log + [t], now) == Recent(log, now) + if now - t < WINDOW_SEC then [t] else []
  {
    if log == [] {
      assert log + [t] == [t];
      assert [t][1..] == [];
    } else {
      RecentAppends(log[1..], t, now);
      assert (log + [t])[1..] == log[1..] + [t];
    }
  }

  /** A log of accepted requests is full exactly when its limit-th last one is less than a minute old. */
  lemma FullIff(log: seq<Time>, now: Time, limit: nat)
    requires Ordered(log) && limit > 0
    ensures RecentCount(log, now) >= limit <==> |log| >= limit && now - log[|log| - limit] < 60.0
  {
    RecentIsSuffix(log, now);
  }

  // ----- the middleware -----

  /** The pruned list answers every question from now on as the full log does. */
  ghost predicate Stands(pruned: seq<Time>, log: seq<Time>, now: Time) {
    forall later :: now <= later ==> Recent(pruned, later) == Recent(log, later)
  }

  /** At least a minute between an accepted request and the limit-th one after it. */
  ghost predicate Spaced(log: seq<Time>, limit: nat) {
    forall i :: 0 <= i && i + limit < |log| ==> log[i + limit] - log[i] >= WINDOW_SEC
  }

  /** A missing key reads as an empty list. */
  function TimesAt(m: map<ClientPath, seq<Time>>, key: ClientPath): seq<Time> {
    if key in m then m[key] else []
  }

  ghost predicate KeyOk(pruned: seq<Time>, log: seq<Time>, clock: Time, limit: nat) {
    && Stands(pruned, log, clock) && Ordered(log) && Spaced(log, limit)
    && forall i :: 0 <= i < |log| ==> log[i] <= clock
  }

  ghost predicate AllOk(hits: map<ClientPath, seq<Time>>, log: map<ClientPath, seq<Time>>, clock: Time, limit: nat) {
    forall key :: KeyOk(TimesAt(hits, key), TimesAt(log, key), clock, limit)
  }

  lemma TimePasses(hits: map<ClientPath, seq<Time>>, log: map<ClientPath, seq<Time>>, clock: Time, now: Time, limit: nat)
    requires AllOk(hits, log, clock, limit) && clock <= now
    ensures AllOk(hits, log, now, limit)
  {
    forall key ensures KeyOk(TimesAt(hits, key), TimesAt(log, key), now, limit) {
      assert KeyOk(TimesAt(hits, key), TimesAt(log, key), clock, limit);
    }
  }

  lemma AcceptKeepsSpacing(log: seq<Time>, limit: nat, now: Time)
    requires Ordered(log) && Spaced(log, limit) && forall i :: 0 <= i < |log| ==> log[i] <= now
    requires RecentCount(log, now) < limit
    ensures Ordered(log + [now]) && Spaced(log + [now], limit)
  {
    RecentIsSuffix(log, now);
  }

  lemma AcceptKeepsStanding(pruned: seq<Time>, log: seq<Time>, now: Time)
    requires Stands(pruned, log, now)
    ensures Stands(Recent(pruned, now) + [now], log + [now], now)
  {
    assert Recent(pruned, now) == Recent(log, now);
    forall later | now <= later ensures Recent(Recent(pruned, now) + [now], later) == Recent(log + [now], later) {
      RecentAppends(Recent(log, now), now, later);
      RecentAppends(log, now, later);
      RecentTwice(log, now, later);
    }
  }

  lemma AcceptKeepsKey(pruned: seq<Time>, log: seq<Time>, now: Time, limit: nat)
    requires KeyOk(pruned, log, now, limit) && RecentCount(log, now) < limit
    ensures KeyOk(Recent(pruned, now) + [now], log + [now], now, limit)
  {
    AcceptKeepsSpacing(log, limit, now);
    AcceptKeepsStanding(pruned, log, now);
  }

  lemma AcceptKeepsAll(hits: map<ClientPath, seq<Time>>, log: map<ClientPath, seq<Time>>, key: ClientPath, now: Time, limit: nat)
    requires AllOk(hits, log, now, limit) && RecentCount(TimesAt(log, key), now) < limit
    ensures AllOk(hits[key := Recent(TimesAt(hits, key), now) + [now]], log[key := TimesAt(log, key) + [now]], now, limit)
  {
    var hits', log' := hits[key := Recent(TimesAt(hits, key), now) + [now]], log[key := TimesAt(log, key) + [now]];
    AcceptKeepsKey(TimesAt(hits, key), TimesAt(log, key), now, limit);
    forall k ensures KeyOk(TimesAt(hits', k), TimesAt(log', k), now, limit) {
      assert KeyOk(TimesAt(hits, k), TimesAt(log, k), now, limit);
    }
  }

  class RateLimiter {
    const limit: nat
    var hits: map<ClientPath, seq<Time>>
    /** Every accepted request ever, and the latest clock reading. */
    ghost var log: map<ClientPath, seq<Time>>
    ghost var clock: Time

    ghost predicate Valid()
      reads this
    {
      AllOk(hits, log, clock, limit)
    }

    constructor (limit: nat, now: Time)
      ensures Valid() && this.limit == limit && clock == now && log == map[]
    {
      this.limit := limit;
      hits, log, clock := map[], map[], now;
    }

    /**
     * One request. It is rejected exactly when its client made `limit` accepted requests to
     * the path in the last minute, and a rejected or exempt request leaves no trace.
     */
    method Dispatch(client: Option<string>, path: string, now: Time) returns (accepted: bool)
      requires Valid() && clock <= now
      modifies this
      ensures Valid() && clock == now
      ensures Exempt(path) ==> accepted && log == old(log) && hits == old(hits)
      ensures !Exempt(path) ==>
                var key := (client.GetOr("unknown"), path);
                && (accepted <==> RecentCount(TimesAt(old(log), key), now) < limit)
                && log == (if accepted then old(log)[key := TimesAt(old(log), key) + [now]] else old(log))
                && (!accepted ==> hits == old(hits))
    {
      TimePasses(hits, log, clock, now, limit);
      clock := now;
      if Exempt(path) {
        return true;
      }
      var key := (client.GetOr("unknown"), path);
      var window := Recent(TimesAt(hits, key), now);
      assert KeyOk(TimesAt(hits, key), TimesAt(log, key), now, limit);
      assert window == Recent(TimesAt(log, key), now);
      if |window| >= limit {
        return false;
      }
      AcceptKeepsAll(hits, log, key, now, limit);
      window := window + [now];
      hits := hits[key := window];
      log := log[key := TimesAt(log, key) + [now]];
      accepted := true;
    }
  }

  // ----- what the spacing means -----

  /** How many entries fall into an interval. */
  function InInterval(log: seq<Time>, from: Time, to: Time): nat {
    if log == [] then 0
    else InInterval(log[..|log| - 1], from, to) + if from <= log[|log| - 1] <= to then 1 else 0
  }

  lemma {:induction false} IntervalIsRun(log: seq<Time>, from: Time, to: Time) returns (lo: nat)
    requires Ordered(log)
    ensures lo + InInterval(log, from, to) <= |log|
    ensures forall i :: lo <= i < lo + InInterval(log, from, to) ==> from <= log[i] <= to
    ensures InInterval(log, from, to) == 0 || lo + InInterval(log, from, to) == |log| || log[|log| - 1] > to
  {
    lo := 0;
    if log != [] {
      var n := |log| - 1;
      var k := IntervalIsRun(log[..n], from, to);
      lo := k;
      if from <= log[n] <= to && InInterval(log[..n], from, to) == 0 {
        lo := n;
      }
    }
  }

  /**
   * No interval shorter than a minute holds more than `limit` accepted requests of one
   * client and path, wherever it starts.
   */
  lemma SpacedBoundsEveryInterval(log: seq<Time>, limit: nat, from: Time, to: Time)
    requires Ordered(log) && Spaced(log, limit) && to - from < WINDOW_SEC
    ensures InInterval(log, from, to) <= limit
  {
    var lo := IntervalIsRun(log, from, to);
    assert lo + limit < |log| ==> log[lo + limit] - log[lo] >= WINDOW_SEC;
  }

  /** A limiter in any reachable state keeps that bound for every client and path. */
  lemma LimiterBoundsEveryInterval(limiter: RateLimiter, key: ClientPath, from: Time, to: Time)
    requires limiter.Valid() && to - from < WINDOW_SEC
    ensures InInterval(TimesAt(limiter.log, key), from, to) <= limiter.limit
  {
    assert KeyOk(TimesAt(limiter.hits, key), TimesAt(limiter.log, key), limiter.clock, limiter.limit);
    SpacedBoundsEveryInterval(TimesAt(limiter.log, key), limiter.limit, from, to);
  }
}
