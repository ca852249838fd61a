/** internal/ratelimit: a token bucket per client in a bounded map with eviction of idle clients.
    Tokens and times are reals and the clock does not go backwards. */
module RateLimit {
  import opened Domain

  const MAX_CLIENTS: nat := 10000
  const IDLE: real := 600.0

  datatype Bucket = Bucket(tokens: real, last: real)

  datatype Rates = Rates(perSec: nat, burst: nat)

  function Min(a: real, b: real): real {
    if a <= b then a else b
  }

  /** Tokens earned in a stretch of time. */
  function Earned(l: Rates, seconds: real): real {
    seconds * l.perSec as real
  }

  /** Tokens of a bucket at a later time. */
  function Refilled(l: Rates, b: Bucket, now: real): real {
    Min(l.burst as real, b.tokens + Earned(l, now - b.last))
  }

  function WithoutIdle(buckets: map<Id, Bucket>, before: real): map<Id, Bucket> {
    map c | c in buckets && buckets[c].last >= before :: buckets[c]
  }

  /** The map after making room for a client that has no bucket. */
  function MadeRoom(buckets: map<Id, Bucket>, client: Id, now: real): map<Id, Bucket> {
    if client !in buckets && |buckets| >= MAX_CLIENTS then WithoutIdle(buckets, now - IDLE) else buckets
  }

  /** One call: the buckets afterwards and whether it was allowed. */
  function Decide(l: Rates, buckets: map<Id, Bucket>, client: Id, now: real): (map<Id, Bucket>, bool) {
    var room := MadeRoom(buckets, client, now);
    if client !in buckets && |room| >= MAX_CLIENTS then (room, false)
    else
      var tokens := if client in room then Refilled(l, room[client], now) else l.burst as real;
      if tokens < 1.0 then (room[client := Bucket(tokens, now)], false)
      else (room[client := Bucket(tokens - 1.0, now)], true)
  }

  class Limiter {
    const rates: Rates
    var buckets: map<Id, Bucket>

    constructor (requestsPerSecond: nat, burst: nat)
      ensures rates == Rates(requestsPerSecond, burst) && buckets == map[]
    {
      rates := Rates(requestsPerSecond, burst);
      buckets := map[];
    }

    method RemoveIdle(before: real)
      modifies this`buckets
      ensures buckets == WithoutIdle(old(buckets), before)
    {
      var todo := buckets.Keys;
      while todo != {}
        invariant todo <= old(buckets).Keys
        invariant buckets ==
                  map c | c in old(buckets) && (c in todo || old(buckets)[c].last >= before) :: old(buckets)[c]
        decreases todo
      {
        var client :| client in todo;
        todo := todo - {client};
        if buckets[client].last < before {
          buckets := buckets - {client};
        }
      }
    }

    method Allow(client: Id, now: real) returns (ok: bool)
      modifies this`buckets
      ensures (buckets, ok) == Decide(rates, old(buckets), client, now)
      ensures ok <==> FindsRoom(old(buckets), client, now) && Credit(rates, old(buckets), client, now) >= 1.0
    {
      AllowedExactlyWhen(rates, buckets, client, now);
      var b;
      if client in buckets {
        b := buckets[client];
      } else {
        if |buckets| >= MAX_CLIENTS {
          RemoveIdle(now - IDLE);
          if |buckets| >= MAX_CLIENTS {
            return false;
          }
        }
        b := Bucket(rates.burst as real, now);
      }
      b := Bucket(Refilled(rates, b, now), now);
      if b.tokens < 1.0 {
        buckets := buckets[client := b];
        return false;
      }
      b := b.(tokens := b.tokens - 1.0);
      buckets := buckets[client := b];
      return true;
    }
  }

  // ---------------------------------------------------------------- histories

  datatype Request = Request(client: Id, at: real)

  /** The clock does not go backwards. */
  ghost predicate Ordered(calls: seq<Request>) {
    forall i, j :: 0 <= i < j < |calls| ==> calls[i].at <= calls[j].at
  }

  /** The buckets after a history, starting empty. */
  function Play(l: Rates, calls: seq<Request>): map<Id, Bucket> {
    if calls == [] then map[]
    else
      var x := calls[|calls| - 1];
      Decide(l, Play(l, calls[..|calls| - 1]), x.client, x.at).0
  }

  /** How many calls of a client were allowed from t1 to t2, both included. */
  function Granted(l: Rates, calls: seq<Request>, c: Id, t1: real, t2: real): nat {
    if calls == [] then 0
    else
      var x := calls[|calls| - 1];
      Granted(l, calls[..|calls| - 1], c, t1, t2)
      + (if x.client == c && t1 <= x.at <= t2 && Decide(l, Play(l, calls[..|calls| - 1]), c, x.at).1 then 1 else 0)
  }

  // ---------------------------------------------------------------- the bound

  ghost predicate Sane(l: Rates, buckets: map<Id, Bucket>, t: real) {
    forall c :: c in buckets ==> 0.0 <= buckets[c].tokens <= l.burst as real && buckets[c].last <= t
  }

  /** What a client could spend at time t. */
  function Credit(l: Rates, buckets: map<Id, Bucket>, c: Id, t: real): real {
    if c in buckets then Refilled(l, buckets[c], t) else l.burst as real
  }

  /** The client has a bucket, or the map has room for one, if need be after dropping the idle ones. */
  predicate FindsRoom(buckets: map<Id, Bucket>, client: Id, now: real) {
    client in buckets || |buckets| < 10000 || |BusySince(buckets, now - 600.0)| < 10000
  }

  function BusySince(buckets: map<Id, Bucket>, before: real): set<Id> {
    set c | c in buckets && buckets[c].last >= before
  }

  /** A call is allowed exactly when there is room for its client and a whole token to spend. */
  lemma AllowedExactlyWhen(l: Rates, buckets: map<Id, Bucket>, client: Id, now: real)
    ensures Decide(l, buckets, client, now).1 <==>
            FindsRoom(buckets, client, now) && Credit(l, buckets, client, now) >= 1.0
  {
    assert WithoutIdle(buckets, now - IDLE).Keys == BusySince(buckets, now - 600.0);
  }

  lemma EarnedNonNegative(l: Rates, t: real)
    requires t >= 0.0
    ensures Earned(l, t) >= 0.0
  {
  }

  lemma EarnedSum(l: Rates, a: real, b: real)
    ensures Earned(l, a + b) == Earned(l, a) + Earned(l, b)
  {
    assert (a + b) * l.perSec as real == a * l.perSec as real + b * l.perSec as real;
  }

  lemma EarnedWhenIdle(l: Rates, t: real)
    requires t >= IDLE && l.burst <= 600 * l.perSec
    ensures Earned(l, t) >= l.burst as real
  {
    EarnedSum(l, IDLE, t - IDLE);
    EarnedNonNegative(l, t - IDLE);
    EarnedIdle(l);
  }

  lemma EarnedIdle(l: Rates)
    ensures Earned(l, IDLE) == (600 * l.perSec) as real
  {
  }

  lemma RefilledInRange(l: Rates, b: Bucket, now: real)
    requires 0.0 <= b.tokens <= l.burst as real && b.last <= now
    ensures 0.0 <= Refilled(l, b, now) <= l.burst as real
    ensures l.burst <= 600 * l.perSec && b.last < now - IDLE ==> Refilled(l, b, now) == l.burst as real
  {
    hide Earned;
    EarnedNonNegative(l, now - b.last);
    if l.burst <= 600 * l.perSec && b.last < now - IDLE {
      EarnedWhenIdle(l, now - b.last);
    }
  }

  /** Evicting a bucket that has been idle long enough to be full again leaves every credit alone. */
  lemma RoomKeepsCredit(l: Rates, buckets: map<Id, Bucket>, client: Id, now: real, c: Id)
    requires l.burst <= 600 * l.perSec && Sane(l, buckets, now)
    ensures var room := MadeRoom(buckets, client, now);
            Sane(l, room, now) && Credit(l, room, c, now) == Credit(l, buckets, c, now)
            && (client in room <==> client in buckets)
  {
    hide Refilled;
    if c in buckets {
      RefilledInRange(l, buckets[c], now);
    }
  }

  /** A call spends one unit of its own client's credit if it is allowed, and nobody else's. */
  lemma DecideSpends(l: Rates, buckets: map<Id, Bucket>, client: Id, now: real, c: Id)
    requires l.burst <= 600 * l.perSec && Sane(l, buckets, now)
    ensures var (after, ok) := Decide(l, buckets, client, now);
            && Sane(l, after, now)
            && Credit(l, after, c, now) == Credit(l, buckets, c, now) - (if client == c && ok then 1.0 else 0.0)
  {
    hide MadeRoom, Earned;
    var room := MadeRoom(buckets, client, now);
    RoomKeepsCredit(l, buckets, client, now, c);
    if client in room {
      RefilledInRange(l, room[client], now);
    }
    assert Earned(l, now - now) == 0.0 by {
      EarnedSum(l, 0.0, 0.0);
    }
  }

  lemma CreditGrows(l: Rates, buckets: map<Id, Bucket>, c: Id, t: real, u: real)
    requires t <= u && Sane(l, buckets, t)
    ensures 0.0 <= Credit(l, buckets, c, u) <= Credit(l, buckets, c, t) + Earned(l, u - t)
    ensures Credit(l, buckets, c, t) <= l.burst as real && Sane(l, buckets, u)
  {
    hide Earned;
    EarnedNonNegative(l, u - t);
    if c in buckets {
      var b := buckets[c];
      RefilledInRange(l, b, u);
      EarnedSum(l, t - b.last, u - t);
      assert t - b.last + (u - t) == u - b.last;
    }
  }

  lemma {:induction false} NothingBefore(l: Rates, calls: seq<Request>, c: Id, t1: real, t2: real)
    requires forall i :: 0 <= i < |calls| ==> calls[i].at < t1
    ensures Granted(l, calls, c, t1, t2) == 0
  {
    if calls != [] {
      NothingBefore(l, calls[..|calls| - 1], c, t1, t2);
    }
  }

  /** Granted calls plus remaining credit never exceed the burst plus what was earned since t1. */
  lemma {:induction false} CreditInvariant(l: Rates, calls: seq<Request>, c: Id, t1: real, t2: real, t: real)
    requires l.burst <= 600 * l.perSec && Ordered(calls)
    requires forall i :: 0 <= i < |calls| ==> calls[i].at <= t
    ensures Sane(l, Play(l, calls), t)
    ensures t1 <= t ==>
              Granted(l, calls, c, t1, t2) as real + Credit(l, Play(l, calls), c, t) <= l.burst as real
                + Earned(l, t - t1)
  {
    hide Earned, Decide, Credit, Sane;
    if t1 <= t {
      EarnedNonNegative(l, t - t1);
    }
    if calls == [] {
      NoBuckets(l, c, t);
    } else {
      var init, x := calls[..|calls| - 1], calls[|calls| - 1];
      CreditInvariant(l, init, c, t1, t2, x.at);
      DecideSpends(l, Play(l, init), x.client, x.at, c);
      CreditGrows(l, Play(l, calls), c, x.at, t);
      if t1 <= x.at {
        EarnedSum(l, t - x.at, x.at - t1);
        assert t - x.at + (x.at - t1) == t - t1;
      } else if t1 <= t {
        NothingBefore(l, calls, c, t1, t2);
        CreditGrows(l, Play(l, calls), c, t, t);
      }
    }
  }

  lemma NoBuckets(l: Rates, c: Id, t: real)
    ensures Sane(l, map[], t) && Credit(l, map[], c, t) == l.burst as real
  {
  }

  ghost predicate Bounded(l: Rates, calls: seq<Request>, c: Id, t1: real, t2: real) {
    Granted(l, calls, c, t1, t2) as real <= l.burst as real + Earned(l, t2 - t1)
  }

  /** The bound, over every history of calls by any clients, whatever was evicted on the way. */
  lemma {:induction false} RateIsBounded(l: Rates, calls: seq<Request>, c: Id, t1: real, t2: real)
    requires l.burst <= 600 * l.perSec && Ordered(calls) && t1 <= t2
    ensures Bounded(l, calls, c, t1, t2)
  {
    hide Earned, Decide, Credit, Sane, Play;
    if calls != [] && calls[|calls| - 1].at > t2 {
      RateIsBounded(l, calls[..|calls| - 1], c, t1, t2);
    } else {
      CreditInvariant(l, calls, c, t1, t2, t2);
      CreditGrows(l, Play(l, calls), c, t2, t2);
    }
  }

  // ---------------------------------------------------------------- without that relation

  function Name(i: nat): Id {
    Id(seq(i, _ => 'x'))
  }

  lemma NamesDiffer(i: nat, j: nat)
    ensures Name(i) == Name(j) <==> i == j
  {
    assert |Name(i).text| == i && |Name(j).text| == j;
  }

  /** k calls of one client at one time. */
  function Repeat(c: Id, at: real, k: nat): seq<Request> {
    if k == 0 then [] else Repeat(c, at, k - 1) + [Request(c, at)]
  }

  /** One call each of k further clients at time zero. */
  function Crowd(k: nat): seq<Request> {
    if k == 0 then [] else Crowd(k - 1) + [Request(Name(k), 0.0)]
  }

  lemma PlayNext(l: Rates, calls: seq<Request>, x: Request, c: Id, t1: real, t2: real)
    ensures Play(l, calls + [x]) == Decide(l, Play(l, calls), x.client, x.at).0
    ensures Granted(l, calls + [x], c, t1, t2)
            == Granted(l, calls, c, t1, t2)
               + (if x.client == c && t1 <= x.at <= t2 && Decide(l, Play(l, calls), c, x.at).1 then 1 else 0)
  {
    assert (calls + [x])[..|calls|] == calls;
  }

  /** The bucket of a client that has spent k units since it was last without a bucket. */
  lemma SpendOne(l: Rates, buckets: map<Id, Bucket>, c: Id, at: real, k: nat)
    requires k < l.burst && |buckets| < MAX_CLIENTS
    requires if k == 0 then c !in buckets else c in buckets && buckets[c] == Bucket((l.burst - k) as real, at)
    ensures Decide(l, buckets, c, at) == (buckets[c := Bucket((l.burst - k - 1) as real, at)], true)
  {
    assert Earned(l, at - at) == 0.0;
  }

  /** A client without a bucket can spend its whole burst at once. */
  lemma {:induction false} SpendBurst(l: Rates, calls: seq<Request>, c: Id, at: real, k: nat, t2: real)
    requires c !in Play(l, calls) && |Play(l, calls)| + 1 < MAX_CLIENTS && k <= l.burst && 0.0 <= at <= t2
    ensures Granted(l, calls + Repeat(c, at, k), c, 0.0, t2) == Granted(l, calls, c, 0.0, t2) + k
    ensures Play(l, calls + Repeat(c, at, k))
            == if k == 0 then Play(l, calls) else Play(l, calls)[c := Bucket((l.burst - k) as real, at)]
  {
    hide Play, Granted, Decide;
    if k == 0 {
      assert calls + [] == calls;
    } else {
      SpendBurst(l, calls, c, at, k - 1, t2);
      var before := calls + Repeat(c, at, k - 1);
      var b := Play(l, before);
      assert calls + Repeat(c, at, k) == before + [Request(c, at)];
      assert k > 1 ==> b.Keys == Play(l, calls).Keys + {c};
      PlayNext(l, before, Request(c, at), c, 0.0, t2);
      SpendOne(l, b, c, at, k - 1);
    }
  }

  ghost predicate Crowded(b: map<Id, Bucket>, k: nat) {
    && |b| == k + 1
    && (forall x :: x in b ==> b[x].last == 0.0 && |x.text| <= k)
  }

  lemma CrowdGrows(l: Rates, b: map<Id, Bucket>, k: nat)
    requires l.burst >= 1 && Crowded(b, k) && k + 1 < MAX_CLIENTS
    ensures Crowded(Decide(l, b, Name(k + 1), 0.0).0, k + 1)
  {
    assert |Name(k + 1).text| == k + 1;
    var after := Decide(l, b, Name(k + 1), 0.0).0;
    assert after.Keys == b.Keys + {Name(k + 1)};
  }

  lemma {:induction false} CrowdFills(l: Rates, calls: seq<Request>, k: nat, t2: real)
    requires l.burst >= 1 && Crowded(Play(l, calls), 0) && k < MAX_CLIENTS
    ensures Crowded(Play(l, calls + Crowd(k)), k)
    ensures Granted(l, calls + Crowd(k), Name(0), 0.0, t2) == Granted(l, calls, Name(0), 0.0, t2)
  {
    hide Play, Granted, Decide, Crowded, Name;
    if k == 0 {
      assert calls + [] == calls;
    } else {
      CrowdFills(l, calls, k - 1, t2);
      var before := calls + Crowd(k - 1);
      assert calls + Crowd(k) == before + [Request(Name(k), 0.0)];
      PlayNext(l, before, Request(Name(k), 0.0), Name(0), 0.0, t2);
      NamesDiffer(0, k);
      CrowdGrows(l, Play(l, before), k - 1);
    }
  }

  /** A newcomer to a full map of idle buckets sweeps all of them away. */
  lemma NewcomerSweeps(l: Rates, b: map<Id, Bucket>, at: real)
    requires l.burst >= 1 && Crowded(b, MAX_CLIENTS - 1) && at > IDLE
    ensures Decide(l, b, Name(MAX_CLIENTS), at).0 == map[Name(MAX_CLIENTS) := Bucket((l.burst - 1) as real, at)]
  {
    assert |Name(MAX_CLIENTS).text| == MAX_CLIENTS;
    assert WithoutIdle(b, at - IDLE) == map[];
  }

  /** A burst, a crowd that fills the map, a newcomer just after the idle time, and the burst again. */
  function EarlyRefill(l: Rates, at: real): seq<Request> {
    Repeat(Name(0), 0.0, l.burst) + Crowd(MAX_CLIENTS - 1) + [Request(Name(MAX_CLIENTS), at)]
      + Repeat(Name(0), at, l.burst)
  }

  lemma EarlyRefillGrants(l: Rates, at: real)
    requires l.burst >= 1 && at > IDLE
    ensures Granted(l, EarlyRefill(l, at), Name(0), 0.0, at) == 2 * l.burst
  {
    hide Play, Granted, Decide, Crowd, Repeat, Name, Crowded;
    var c := Name(0);
    var first := Repeat(c, 0.0, l.burst);
    FirstBurst(l, at);
    CrowdFills(l, first, MAX_CLIENTS - 1, at);
    var filled := first + Crowd(MAX_CLIENTS - 1);
    var newcomer := Request(Name(MAX_CLIENTS), at);
    PlayNext(l, filled, newcomer, c, 0.0, at);
    NewcomerSweeps(l, Play(l, filled), at);
    NamesDiffer(0, MAX_CLIENTS);
    SpendBurst(l, filled + [newcomer], c, at, l.burst, at);
  }

  lemma FirstBurst(l: Rates, at: real)
    requires l.burst >= 1 && at > IDLE
    ensures Granted(l, Repeat(Name(0), 0.0, l.burst), Name(0), 0.0, at) == l.burst
    ensures Crowded(Play(l, Repeat(Name(0), 0.0, l.burst)), 0)
  {
    SpendBurst(l, [], Name(0), 0.0, l.burst, at);
    assert [] + Repeat(Name(0), 0.0, l.burst) == Repeat(Name(0), 0.0, l.burst);
    assert |Name(0).text| == 0;
  }

  lemma {:induction false} RepeatTimes(c: Id, at: real, k: nat)
    ensures forall i :: 0 <= i < |Repeat(c, at, k)| ==> Repeat(c, at, k)[i].at == at
  {
    if k > 0 {
      RepeatTimes(c, at, k - 1);
    }
  }

  lemma {:induction false} CrowdTimes(k: nat)
    ensures forall i :: 0 <= i < |Crowd(k)| ==> Crowd(k)[i].at == 0.0
  {
    if k > 0 {
      CrowdTimes(k - 1);
    }
  }

  lemma EarlyRefillIsOrdered(l: Rates, at: real)
    requires at > 0.0
    ensures Ordered(EarlyRefill(l, at))
  {
    hide Repeat, Crowd, Name;
    RepeatTimes(Name(0), 0.0, l.burst);
    RepeatTimes(Name(0), at, l.burst);
    CrowdTimes(MAX_CLIENTS - 1);
    var n := |Repeat(Name(0), 0.0, l.burst)| + |Crowd(MAX_CLIENTS - 1)|;
    assert forall i :: 0 <= i < |EarlyRefill(l, at)| ==> EarlyRefill(l, at)[i].at == if i < n then 0.0 else at;
  }

  lemma ShortDelay(l: Rates) returns (h: real)
    ensures h > 0.0 && Earned(l, h) < 1.0
  {
    var p := l.perSec as real;
    if l.perSec == 0 {
      h := 1.0;
    } else {
      h := 0.5 / p;
      assert h * p == 0.5;
    }
  }

  /** A moment just after the idle time by which the burst has not been earned back. */
  lemma EarlyMoment(l: Rates) returns (at: real)
    requires l.burst > 600 * l.perSec
    ensures at > IDLE && Earned(l, at) < l.burst as real
  {
    hide Earned;
    var h := ShortDelay(l);
    at := IDLE + h;
    EarnedSum(l, IDLE, h);
    EarnedIdle(l);
    assert (l.burst - 600 * l.perSec) as real >= 1.0;
  }

  /** Configurations whose burst outlasts the idle time break the bound: config only requires both
      numbers to be between 1 and 100000. */
  lemma EvictionRefillsEarly(l: Rates)
    requires l.burst > 600 * l.perSec
    ensures exists calls, c, t1, t2 :: Ordered(calls) && t1 <= t2 && !Bounded(l, calls, c, t1, t2)
  {
    hide Granted, Earned, EarlyRefill, Ordered, Name;
    var at := EarlyMoment(l);
    EarlyRefillGrants(l, at);
    EarlyRefillIsOrdered(l, at);
    assert at - 0.0 == at;
    assert !Bounded(l, EarlyRefill(l, at), Name(0), 0.0, at);
  }

  /** The exact condition under which the rate is bounded for all clients and all histories. */
  lemma BoundHoldsExactlyWhen(l: Rates)
    ensures (forall calls, c, t1, t2 :: Ordered(calls) && t1 <= t2 ==> Bounded(l, calls, c, t1, t2))
            <==> l.burst <= 600 * l.perSec
  {
    hide Bounded;
    if l.burst <= 600 * l.perSec {
      forall calls, c, t1, t2 | Ordered(calls) && t1 <= t2 ensures Bounded(l, calls, c, t1, t2) {
        RateIsBounded(l, calls, c, t1, t2);
      }
    } else {
      EvictionRefillsEarly(l);
    }
  }
}
