/** The public budget against a reference that looks at the visits alone: who is admitted, who is refused
    and why. */
module BudgetReference {
  import opened Domain
  import opened PublicBudget

  /** How many of these visits started after t. */
  function CountAfter(visits: seq<Visit>, t: real): nat {
    if visits == [] then 0
    else CountAfter(visits[..|visits| - 1], t) + (if visits[|visits| - 1].start > t then 1 else 0)
  }

  predicate Has(visits: seq<Visit>, key: Id, start: real) {
    exists i :: 0 <= i < |visits| && visits[i].key == key && visits[i].start == start
  }

  /** The key was among these visits at this time or later. */
  predicate Known(visits: seq<Visit>, key: Id, since: real) {
    exists i :: 0 <= i < |visits| && visits[i].key == key && visits[i].start >= since
  }

  // ---------------------------------------------------------------- a refusal is earned

  /** How many visits were admitted that started after t. */
  function AdmittedAfter(visits: seq<Visit>, max: nat, t: real): nat {
    if visits == [] then 0
    else AdmittedAfter(visits[..|visits| - 1], max, t)
         + (if AdmitsLast(visits, max) && visits[|visits| - 1].start > t then 1 else 0)
  }

  lemma JudgeAddsOne(actions: map<Id, real>, v: Visit, max: nat, t: real)
    ensures var (after, verdict) := Judge(actions, v.key, v.start, max);
            |Recent(after, t)| <= |Recent(actions, t)| + (if verdict == Admitted && v.start > t then 1 else 0)
  {
    var (after, verdict) := Judge(actions, v.key, v.start, max);
    if verdict == Admitted && v.start > t {
      assert Recent(after, t) <= Recent(actions, t) + {v.key};
      SubsetSize(Recent(after, t), Recent(actions, t) + {v.key});
    } else {
      SubsetSize(Recent(after, t), Recent(actions, t));
    }
  }

  lemma {:induction false} RowsWereAdmitted(visits: seq<Visit>, max: nat, t: real)
    ensures |Recent(Table(visits, max), t)| <= AdmittedAfter(visits, max, t)
  {
    hide Judge;
    if visits == [] {
      assert Recent(map[], t) == {};
    } else {
      RowsWereAdmitted(visits[..|visits| - 1], max, t);
      JudgeAddsOne(Table(visits[..|visits| - 1], max), visits[|visits| - 1], max, t);
    }
  }

  /** Over every history, whatever the waits: a visit is refused only if the last minute before its start
      holds at least `max` earlier admissions. */
  lemma RefusedOnlyWhenUsedUp(visits: seq<Visit>, v: Visit, max: nat)
    requires Judge(Table(visits, max), v.key, v.start, max).1 == Limited
    ensures AdmittedAfter(visits, max, v.start - 60.0) >= max
  {
    var t := v.start - 60.0;
    RowsWereAdmitted(visits, max, t);
    SubsetSize(Recent(Kept(Table(visits, max), v.start - DAY), t), Recent(Table(visits, max), t));
  }

  // ---------------------------------------------------------------- the reference

  /** The admitted visits, by the rules alone: a key admitted within the last day is a repeat; otherwise
      there must be fewer than `max` admissions in the last minute. */
  function Admissions(visits: seq<Visit>, max: nat): seq<Visit> {
    if visits == [] then []
    else
      var before, v := Admissions(visits[..|visits| - 1], max), visits[|visits| - 1];
      if !Known(before, v.key, v.start - 86400.0) && CountAfter(before, v.start - 60.0) < max then before + [v]
      else before
  }

  function Verdicts(visits: seq<Visit>, v: Visit, max: nat): Verdict {
    var before := Admissions(visits, max);
    if Known(before, v.key, v.start - 86400.0) then Repeated
    else if CountAfter(before, v.start - 60.0) < max then Admitted
    else Limited
  }

  /** Transactions take the lock in the order they started. */
  ghost predicate Punctual(visits: seq<Visit>, now: real) {
    && (forall i, j :: 0 <= i < j < |visits| ==> visits[i].start <= visits[j].start)
    && (forall i :: 0 <= i < |visits| ==> visits[i].start <= now)
  }

  /** The table holds exactly the admissions of the last day. */
  ghost predicate Mirrors(actions: map<Id, real>, admitted: seq<Visit>, since: real) {
    && (forall k, t | t >= since :: (k in actions && actions[k] == t) <==> Has(admitted, k, t))
    && (forall t | t >= since :: |Recent(actions, t)| == CountAfter(admitted, t))
  }

  lemma CountNext(visits: seq<Visit>, v: Visit, t: real)
    ensures CountAfter(visits + [v], t) == CountAfter(visits, t) + (if v.start > t then 1 else 0)
  {
    assert (visits + [v])[..|visits|] == visits;
  }

  lemma HasNext(visits: seq<Visit>, v: Visit, k: Id, t: real)
    ensures Has(visits + [v], k, t) <==> Has(visits, k, t) || (k == v.key && t == v.start)
  {
    if i :| 0 <= i < |visits| && visits[i].key == k && visits[i].start == t {
      assert (visits + [v])[i] == visits[i];
    }
    assert (visits + [v])[|visits|] == v;
  }

  lemma KnownIsKept(actions: map<Id, real>, admitted: seq<Visit>, key: Id, since: real)
    requires Mirrors(actions, admitted, since)
    ensures Known(admitted, key, since) <==> key in Kept(actions, since)
  {
    if i :| 0 <= i < |admitted| && admitted[i].key == key && admitted[i].start >= since {
      assert Has(admitted, key, admitted[i].start);
    }
    if key in Kept(actions, since) {
      assert Has(admitted, key, actions[key]);
    }
  }

  /** The judgement is the reference's. */
  lemma JudgesAlike(actions: map<Id, real>, admitted: seq<Visit>, v: Visit, max: nat)
    requires Mirrors(actions, admitted, v.start - DAY)
    ensures var (after, verdict) := Judge(actions, v.key, v.start, max);
            && (verdict == Repeated <==> Known(admitted, v.key, v.start - 86400.0))
            && (verdict == Admitted <==>
                  !Known(admitted, v.key, v.start - 86400.0) && CountAfter(admitted, v.start - 60.0) < max)
  {
    KnownIsKept(actions, admitted, v.key, v.start - DAY);
    assert Recent(Kept(actions, v.start - DAY), v.start - MINUTE) == Recent(actions, v.start - 60.0);
  }

  lemma KeptMirrors(actions: map<Id, real>, admitted: seq<Visit>, since: real, later: real)
    requires Mirrors(actions, admitted, since) && since <= later
    ensures Mirrors(actions, admitted, later) && Mirrors(Kept(actions, since), admitted, later)
  {
    var kept := Kept(actions, since);
    forall k, t | t >= later ensures (k in kept && kept[k] == t) <==> Has(admitted, k, t) {
      assert (k in actions && actions[k] == t) <==> Has(admitted, k, t);
    }
    forall t | t >= later ensures |Recent(kept, t)| == CountAfter(admitted, t) {
      assert Recent(kept, t) == Recent(actions, t);
    }
  }

  lemma AdmissionMirrors(actions: map<Id, real>, admitted: seq<Visit>, v: Visit, later: real)
    requires Mirrors(Kept(actions, v.start - DAY), admitted, later) && v.start - DAY <= later
    requires v.key !in Kept(actions, v.start - DAY)
    ensures Mirrors(Kept(actions, v.start - DAY)[v.key := v.start], admitted + [v], later)
  {
    hide Has, CountAfter;
    var kept := Kept(actions, v.start - DAY);
    var after := kept[v.key := v.start];
    forall k, t | t >= later ensures (k in after && after[k] == t) <==> Has(admitted + [v], k, t) {
      HasNext(admitted, v, k, t);
      assert (k in kept && kept[k] == t) <==> Has(admitted, k, t);
    }
    forall t | t >= later ensures |Recent(after, t)| == CountAfter(admitted + [v], t) {
      CountNext(admitted, v, t);
      assert Recent(after, t) == if v.start > t then Recent(kept, t) + {v.key} else Recent(kept, t);
    }
  }

  lemma {:induction false} TableMirrors(visits: seq<Visit>, max: nat, now: real)
    requires Punctual(visits, now)
    ensures Mirrors(Table(visits, max), Admissions(visits, max), now - DAY)
  {
    hide Judge, Mirrors, Known, CountAfter;
    if visits == [] {
      NothingMirrors(now - DAY);
    } else {
      var init, v := visits[..|visits| - 1], visits[|visits| - 1];
      TableMirrors(init, max, v.start);
      var actions, admitted := Table(init, max), Admissions(init, max);
      JudgesAlike(actions, admitted, v, max);
      KeptMirrors(actions, admitted, v.start - DAY, now - DAY);
      JudgedTable(actions, v, max);
      if Judge(actions, v.key, v.start, max).1 == Admitted {
        AdmissionMirrors(actions, admitted, v, now - DAY);
      }
    }
  }

  lemma JudgedTable(actions: map<Id, real>, v: Visit, max: nat)
    ensures var (after, verdict) := Judge(actions, v.key, v.start, max);
            var kept := Kept(actions, v.start - DAY);
            && (verdict == Admitted ==> v.key !in kept && after == kept[v.key := v.start])
            && (verdict == Repeated ==> after == kept)
            && (verdict == Limited ==> after == actions)
            && (verdict == Admitted || verdict == Repeated || verdict == Limited)
  {
  }

  lemma NothingMirrors(since: real)
    ensures Mirrors(map[], [], since)
  {
    forall t ensures |Recent(map[], t)| == CountAfter([], t) {
      assert Recent(map[], t) == {};
    }
  }

  /** While transactions take the lock in the order they started, every verdict is the reference's: a key
      admitted within the last day is repeated, any other is admitted exactly when fewer than `max`
      admissions lie in the half-open minute before it. */
  lemma VerdictsAreTheReference(visits: seq<Visit>, v: Visit, max: nat)
    requires Punctual(visits, v.start)
    ensures Judge(Table(visits, max), v.key, v.start, max).1 == Verdicts(visits, v, max)
  {
    TableMirrors(visits, max, v.start);
    JudgesAlike(Table(visits, max), Admissions(visits, max), v, max);
    JudgedTable(Table(visits, max), v, max);
  }
}
