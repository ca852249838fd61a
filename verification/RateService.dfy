/** What the limiter owes its clients: exactly which calls are allowed, against a reference that knows the
    calls alone, and that a client who keeps to the rate is never refused. */
module RateService {
  import opened Domain
  import opened RateLimit

  // ---------------------------------------------------------------- the reference

  /** The tokens of a client at time t by the history of calls alone: full at the start, one less for each
      call that found one, refilled at the rate up to the burst. */
  function Bank(l: Rates, calls: seq<Request>, c: Id, t: real): real {
    if calls == [] then l.burst as real
    else
      var x := calls[|calls| - 1];
      var before := Bank(l, calls[..|calls| - 1], c, x.at);
      var after := if x.client == c && before >= 1.0 then before - 1.0 else before;
      Min(l.burst as real, after + (t - x.at) * l.perSec as real)
  }

  function Clients(calls: seq<Request>): set<Id> {
    set x | x in calls :: x.client
  }

  ghost predicate AllBefore(calls: seq<Request>, t: real) {
    forall i :: 0 <= i < |calls| ==> calls[i].at <= t
  }

  /** Credit grows with the clock alone, up to the burst. */
  lemma CreditFollowsClock(l: Rates, buckets: map<Id, Bucket>, c: Id, t: real, u: real)
    requires t <= u && Sane(l, buckets, t)
    ensures Credit(l, buckets, c, u) == Min(l.burst as real, Credit(l, buckets, c, t) + Earned(l, u - t))
  {
    hide Earned;
    EarnedNonNegative(l, u - t);
    if c in buckets {
      EarnedSum(l, t - buckets[c].last, u - t);
      assert t - buckets[c].last + (u - t) == u - buckets[c].last;
    }
  }

  lemma PlainDecision(l: Rates, buckets: map<Id, Bucket>, client: Id, now: real)
    requires Sane(l, buckets, now) && (client in buckets || |buckets| < MAX_CLIENTS)
    ensures var (after, ok) := Decide(l, buckets, client, now);
            var tokens := Credit(l, buckets, client, now);
            && ok == (tokens >= 1.0)
            && after == buckets[client := Bucket(if ok then tokens - 1.0 else tokens, now)]
            && Sane(l, after, now)
  {
    hide Earned;
    if client in buckets {
      RefilledInRange(l, buckets[client], now);
    }
  }

  lemma ClientsGrow(calls: seq<Request>)
    requires calls != []
    ensures Clients(calls) == Clients(calls[..|calls| - 1]) + {calls[|calls| - 1].client}
  {
    assert calls == calls[..|calls| - 1] + [calls[|calls| - 1]];
  }

  lemma {:induction false} SmallerSet(a: set<Id>, b: set<Id>)
    requires a <= b
    ensures |a| <= |b| && (|a| == |b| ==> a == b)
  {
    if a != {} {
      var x :| x in a;
      SmallerSet(a - {x}, b - {x});
    }
  }

  lemma RoomForAll(keys: set<Id>, clients: set<Id>, client: Id)
    requires keys <= clients && client in clients && |clients| <= MAX_CLIENTS
    ensures client in keys || |keys| < MAX_CLIENTS
  {
    SmallerSet(keys, clients);
  }

  /** While there are no more clients than the map holds, the buckets carry exactly the reference's tokens. */
  lemma {:induction false} CreditIsBank(l: Rates, calls: seq<Request>, c: Id, t: real)
    requires Ordered(calls) && AllBefore(calls, t) && |Clients(calls)| <= MAX_CLIENTS
    ensures Sane(l, Play(l, calls), t) && Play(l, calls).Keys <= Clients(calls)
    ensures Credit(l, Play(l, calls), c, t) == Bank(l, calls, c, t)
    decreases |calls|
  {
    hide Decide, Clients, Earned, Refilled, Sane;
    if calls == [] {
      NoBuckets(l, c, t);
    } else {
      var init, x := calls[..|calls| - 1], calls[|calls| - 1];
      ClientsGrow(calls);
      SmallerSet(Clients(init), Clients(calls));
      CreditIsBank(l, init, c, x.at);
      RoomForAll(Play(l, init).Keys, Clients(calls), x.client);
      PlainDecision(l, Play(l, init), x.client, x.at);
      CreditGrows(l, Play(l, calls), c, x.at, t);
      CreditFollowsClock(l, Play(l, calls), c, x.at, t);
      BankNext(l, Play(l, init), calls, c, t);
    }
  }

  lemma BankNext(l: Rates, before: map<Id, Bucket>, calls: seq<Request>, c: Id, t: real)
    requires calls != []
    requires var x := calls[|calls| - 1];
             && Sane(l, before, x.at) && (x.client in before || |before| < MAX_CLIENTS)
             && Credit(l, before, c, x.at) == Bank(l, calls[..|calls| - 1], c, x.at)
             && var after := Decide(l, before, x.client, x.at).0;
                Credit(l, after, c, t) == Min(l.burst as real, Credit(l, after, c, x.at) + Earned(l, t - x.at))
    ensures var x := calls[|calls| - 1]; Credit(l, Decide(l, before, x.client, x.at).0, c, t) == Bank(l, calls, c, t)
  {
    hide Decide;
    var x := calls[|calls| - 1];
    PlainDecision(l, before, x.client, x.at);
    var after := Decide(l, before, x.client, x.at).0;
    assert Earned(l, x.at - x.at) == 0.0;
    if x.client == c {
      BankInRange(l, before, c, x.at);
    }
  }

  lemma BankInRange(l: Rates, buckets: map<Id, Bucket>, c: Id, t: real)
    requires Sane(l, buckets, t)
    ensures 0.0 <= Credit(l, buckets, c, t) <= l.burst as real
  {
    if c in buckets {
      RefilledInRange(l, buckets[c], t);
    }
  }

  /** The reference decides: a call is allowed exactly when the history leaves its client a whole token. */
  lemma ReferenceDecides(l: Rates, calls: seq<Request>, client: Id, now: real)
    requires Ordered(calls) && AllBefore(calls, now) && |Clients(calls) + {client}| <= MAX_CLIENTS
    ensures Decide(l, Play(l, calls), client, now).1 <==> Bank(l, calls, client, now) >= 1.0
  {
    SmallerSet(Clients(calls), Clients(calls) + {client});
    CreditIsBank(l, calls, client, now);
    RoomForAll(Play(l, calls).Keys, Clients(calls) + {client}, client);
    PlainDecision(l, Play(l, calls), client, now);
  }

  // ---------------------------------------------------------------- keeping to the rate

  /** Two calls of the client are far enough apart to earn a token in between. */
  ghost predicate Spaced(l: Rates, calls: seq<Request>, c: Id) {
    forall i, j :: 0 <= i < j < |calls| && calls[i].client == c && calls[j].client == c ==>
      (calls[j].at - calls[i].at) * l.perSec as real >= 1.0
  }

  /** How many calls of a client there were from t1 to t2. */
  function Asked(calls: seq<Request>, c: Id, t1: real, t2: real): nat {
    if calls == [] then 0
    else
      var x := calls[|calls| - 1];
      Asked(calls[..|calls| - 1], c, t1, t2) + (if x.client == c && t1 <= x.at <= t2 then 1 else 0)
  }

  /** A time by which every call of the client has earned its token back. */
  ghost predicate Rested(l: Rates, calls: seq<Request>, c: Id, t: real) {
    forall i :: 0 <= i < |calls| && calls[i].client == c ==> (t - calls[i].at) * l.perSec as real >= 1.0
  }

  lemma {:induction false} BankRange(l: Rates, calls: seq<Request>, c: Id, t: real)
    requires Ordered(calls) && AllBefore(calls, t)
    ensures 0.0 <= Bank(l, calls, c, t) <= l.burst as real
    decreases |calls|
  {
    if calls != [] {
      var init, x := calls[..|calls| - 1], calls[|calls| - 1];
      BankRange(l, init, c, x.at);
      EarnedNonNegative(l, t - x.at);
      BankLast(l, calls, c, t);
      hide Bank, Earned;
    }
  }

  /** A client rested at u will have a token then. */
  lemma {:induction false} RestedWillHaveToken(l: Rates, calls: seq<Request>, c: Id, t: real, u: real)
    requires Ordered(calls) && AllBefore(calls, t) && t <= u && l.burst >= 1 && Rested(l, calls, c, u)
    ensures Bank(l, calls, c, t) + Earned(l, u - t) >= 1.0
    decreases |calls|
  {
    EarnedNonNegative(l, u - t);
    if calls != [] {
      var init, x := calls[..|calls| - 1], calls[|calls| - 1];
      BankRange(l, init, c, x.at);
      RestedWillHaveToken(l, init, c, x.at, u);
      EarnedSum(l, t - x.at, u - t);
      assert t - x.at + (u - t) == u - x.at;
      BankLast(l, calls, c, t);
      hide Bank;
    }
  }

  lemma BankLast(l: Rates, calls: seq<Request>, c: Id, t: real)
    requires calls != []
    ensures var x := calls[|calls| - 1];
            var before := Bank(l, calls[..|calls| - 1], c, x.at);
            var after := if x.client == c && before >= 1.0 then before - 1.0 else before;
            Bank(l, calls, c, t) == Min(l.burst as real, after + Earned(l, t - x.at))
  {
  }

  /** With no more clients than the map holds, a client whose calls are at least 1/perSec apart is never refused. */
  lemma {:induction false} KeepingToTheRateIsServed(l: Rates, calls: seq<Request>, c: Id, t1: real, t2: real)
    requires Ordered(calls) && |Clients(calls)| <= MAX_CLIENTS && l.burst >= 1 && Spaced(l, calls, c)
    ensures Granted(l, calls, c, t1, t2) == Asked(calls, c, t1, t2)
    decreases |calls|
  {
    hide Decide, Play, Bank, Clients;
    if calls != [] {
      var init, x := calls[..|calls| - 1], calls[|calls| - 1];
      ClientsGrow(calls);
      SmallerSet(Clients(init), Clients(calls));
      KeepingToTheRateIsServed(l, init, c, t1, t2);
      if x.client == c {
        RestedWillHaveToken(l, init, c, x.at, x.at);
        assert Earned(l, x.at - x.at) == 0.0;
        ReferenceDecides(l, init, c, x.at);
      }
    }
  }
}
