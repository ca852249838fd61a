/** ReservePublicDemo's budget: at most `max` admissions in any minute of created_at values, although
    created_at is the transaction's start time and transactions take the lock in any order. */
module PublicBudget {
  import opened Domain

  const MINUTE: real := 60.0
  const DAY: real := 86400.0

  datatype Verdict = Repeated | Admitted | Limited | InvalidKey | InvalidLimit

  function Kept(actions: map<Id, real>, before: real): map<Id, real> {
    map k | k in actions && actions[k] >= before :: actions[k]
  }

  function Recent(actions: map<Id, real>, after: real): set<Id> {
    set k | k in actions && actions[k] > after
  }

  /** The actions of the minute before `now`. */
  function LastMinute(actions: map<Id, real>, now: real): set<Id> {
    set k | k in actions && actions[k] > now - 60.0
  }

  /** DELETE FROM idempotency_keys WHERE expires_at < now(): a replay row expires a day after it was written. */
  function Unexpired(replays: map<Id, real>, now: real): map<Id, real> {
    map k | k in replays && replays[k] + DAY >= now :: replays[k]
  }

  /** One transaction that started at `start`, run under the advisory lock. A refusal rolls the purge back. */
  function Judge(actions: map<Id, real>, key: Id, start: real, max: nat): (map<Id, real>, Verdict) {
    var kept := Kept(actions, start - DAY);
    if key in kept then (kept, Repeated)
    else if |Recent(kept, start - MINUTE)| >= max then (actions, Limited)
    else (kept[key := start], Admitted)
  }

  /** The tables of the budget transaction: public_demo_actions by created_at, and the replay rows of
      idempotency_keys by the time they were written. */
  class ActionTable {
    var actions: map<Id, real>
    var replays: map<Id, real>

    constructor ()
      ensures actions == map[] && replays == map[]
    {
      actions, replays := map[], map[];
    }

    /** `key` is trimmed; `now` is the transaction's now(). */
    method Admit(key: Id, maxPerMinute: int, now: real) returns (verdict: Verdict)
      modifies this
      ensures verdict == InvalidKey <==> |key.text| == 0 || |key.text| > 200
      ensures verdict == InvalidLimit <==> 1 <= |key.text| <= 200 && !(1 <= maxPerMinute <= 100)
      ensures verdict != InvalidKey && verdict != InvalidLimit ==>
                (actions, verdict) == Judge(old(actions), key, now, maxPerMinute)
      ensures verdict == Repeated || verdict == Limited || verdict == Admitted ==>
                && (verdict == Repeated <==> key in old(actions) && old(actions)[key] >= now - 86400.0)
                && (verdict == Limited ==> |LastMinute(old(actions), now)| >= maxPerMinute)
                && (verdict == Admitted ==> |LastMinute(old(actions), now)| < maxPerMinute)
      ensures verdict == Admitted || verdict == Repeated ==> replays == Unexpired(old(replays), now)
      ensures !(verdict == Admitted || verdict == Repeated) ==> actions == old(actions) && replays == old(replays)
    {
      if |key.text| == 0 || |key.text| > 200 {
        return InvalidKey;
      }
      if maxPerMinute < 1 || maxPerMinute > 100 {
        return InvalidLimit;
      }
      assert Recent(Kept(actions, now - DAY), now - MINUTE) == LastMinute(actions, now);
      var begun := (actions, replays);
      actions := Kept(actions, now - DAY);
      replays := Unexpired(replays, now);
      if key !in actions {
        var count := |Recent(actions, now - MINUTE)|;
        if count >= maxPerMinute {
          actions, replays := begun.0, begun.1;
          return Limited;
        }
        actions := actions[key := now];
        return Admitted;
      }
      return Repeated;
    }
  }

  // ---------------------------------------------------------------- histories in lock order

  /** A transaction that started at `start` and got the lock at `at`. */
  datatype Visit = Visit(key: Id, start: real, at: real)

  /** Locks are taken one after another, never before the start, and no wait is longer than `wait`. */
  ghost predicate Plausible(visits: seq<Visit>, wait: real) {
    && (forall i, j :: 0 <= i < j < |visits| ==> visits[i].at <= visits[j].at)
    && (forall i :: 0 <= i < |visits| ==> visits[i].start <= visits[i].at <= visits[i].start + wait)
  }

  function Table(visits: seq<Visit>, max: nat): map<Id, real> {
    if visits == [] then map[]
    else
      var v := visits[|visits| - 1];
      Judge(Table(visits[..|visits| - 1], max), v.key, v.start, max).0
  }

  /** A one-minute window that is open at one end. */
  datatype Window = Window(a: real, leftClosed: bool)

  predicate Inside(w: Window, x: real) {
    if w.leftClosed then w.a <= x < w.a + MINUTE else w.a < x <= w.a + MINUTE
  }

  predicate AdmitsLast(visits: seq<Visit>, max: nat)
    requires visits != []
  {
    var v := visits[|visits| - 1];
    Judge(Table(visits[..|visits| - 1], max), v.key, v.start, max).1 == Admitted
  }

  /** How many admitted actions have a created_at inside the window. */
  function AdmittedIn(visits: seq<Visit>, max: nat, w: Window): nat {
    if visits == [] then 0
    else AdmittedIn(visits[..|visits| - 1], max, w)
         + (if AdmitsLast(visits, max) && Inside(w, visits[|visits| - 1].start) then 1 else 0)
  }

  // ---------------------------------------------------------------- waits up to a day less a minute

  function Rows(actions: map<Id, real>, w: Window): set<Id> {
    set k | k in actions && Inside(w, actions[k])
  }

  lemma JudgeInWindow(actions: map<Id, real>, v: Visit, max: nat, w: Window)
    requires v.start <= w.a + DAY && |Rows(actions, w)| <= max
    ensures var (after, verdict) := Judge(actions, v.key, v.start, max);
            && |Rows(after, w)| == |Rows(actions, w)| + (if verdict == Admitted && Inside(w, v.start) then 1 else 0)
            && |Rows(after, w)| <= max
  {
    var kept := Kept(actions, v.start - DAY);
    assert Rows(kept, w) == Rows(actions, w);
    var (after, verdict) := Judge(actions, v.key, v.start, max);
    if verdict == Admitted {
      if Inside(w, v.start) {
        assert Rows(after, w) == Rows(kept, w) + {v.key};
        assert Rows(kept, w) <= Recent(kept, v.start - MINUTE);
        SubsetSize(Rows(kept, w), Recent(kept, v.start - MINUTE));
      } else {
        assert Rows(after, w) == Rows(kept, w);
      }
    }
  }

  lemma {:induction false} SubsetSize(a: set<Id>, b: set<Id>)
    requires a <= b
    ensures |a| <= |b|
  {
    if a != {} {
      var x :| x in a;
      SubsetSize(a - {x}, b - {x});
    }
  }

  /** Until a day after the window opened no row of it has been purged, and later no admission can fall in it. */
  lemma {:induction false} WindowInvariant(visits: seq<Visit>, max: nat, wait: real, w: Window)
    requires Plausible(visits, wait) && wait <= DAY - MINUTE
    ensures AdmittedIn(visits, max, w) <= max
    ensures (forall i :: 0 <= i < |visits| ==> visits[i].at <= w.a + DAY) ==>
              |Rows(Table(visits, max), w)| == AdmittedIn(visits, max, w)
  {
    hide Judge, Rows;
    if visits == [] {
      NoRows(w);
    } else {
      var init, v := visits[..|visits| - 1], visits[|visits| - 1];
      WindowInvariant(init, max, wait, w);
      if v.at <= w.a + DAY {
        assert forall i :: 0 <= i < |init| ==> init[i].at <= v.at;
        JudgeInWindow(Table(init, max), v, max, w);
      } else {
        assert !Inside(w, v.start);
      }
    }
  }

  lemma NoRows(w: Window)
    ensures Rows(map[], w) == {}
  {
  }

  // ---------------------------------------------------------------- a limit of one

  /** Some row is at least as young as the given time. */
  ghost predicate Younger(actions: map<Id, real>, t: real) {
    exists k :: k in actions && actions[k] >= t
  }

  lemma JudgeKeepsYounger(actions: map<Id, real>, v: Visit, max: nat, t: real)
    requires Younger(actions, t)
    ensures Younger(Judge(actions, v.key, v.start, max).0, t)
  {
    var kept := Kept(actions, v.start - DAY);
    var k :| k in actions && actions[k] >= t;
    var after := Judge(actions, v.key, v.start, max).0;
    if k in after && after[k] >= t {
      assert Younger(after, t);
    } else {
      assert v.key in after && after[v.key] >= v.start - DAY;
    }
  }

  lemma OneAtATime(actions: map<Id, real>, v: Visit, t: real)
    requires Younger(actions, t) && v.start - MINUTE < t
    ensures Judge(actions, v.key, v.start, 1).1 != Admitted
  {
    var kept := Kept(actions, v.start - DAY);
    var k :| k in actions && actions[k] >= t;
    assert k in Recent(kept, v.start - MINUTE);
  }

  /** With a limit of one the window holds whatever the waits. */
  lemma {:induction false} LimitOfOne(visits: seq<Visit>, w: Window)
    ensures AdmittedIn(visits, 1, w) <= 1
    ensures AdmittedIn(visits, 1, w) == 1 ==> exists t :: Inside(w, t) && Younger(Table(visits, 1), t)
  {
    hide Judge, Younger;
    if visits != [] {
      var init, v := visits[..|visits| - 1], visits[|visits| - 1];
      LimitOfOne(init, w);
      if AdmittedIn(init, 1, w) == 1 {
        var t :| Inside(w, t) && Younger(Table(init, 1), t);
        JudgeKeepsYounger(Table(init, 1), v, 1, t);
        assert Younger(Table(visits, 1), t);
        if Inside(w, v.start) {
          OneAtATime(Table(init, 1), v, t);
        }
      } else if AdmitsLast(visits, 1) && Inside(w, v.start) {
        AdmissionIsYoung(Table(init, 1), v, 1);
      }
    }
  }

  lemma AdmissionIsYoung(actions: map<Id, real>, v: Visit, max: nat)
    requires Judge(actions, v.key, v.start, max).1 == Admitted
    ensures Younger(Judge(actions, v.key, v.start, max).0, v.start)
  {
    assert v.key in Judge(actions, v.key, v.start, max).0;
  }

  // ---------------------------------------------------------------- repeats

  /** A key whose action row is still there is never refused and uses up no budget, now or in any window. */
  lemma RepeatsAreFree(visits: seq<Visit>, v: Visit, max: nat, w: Window)
    requires v.key in Table(visits, max) && Table(visits, max)[v.key] >= v.start - DAY
    ensures Judge(Table(visits, max), v.key, v.start, max).1 == Repeated
    ensures AdmittedIn(visits + [v], max, w) == AdmittedIn(visits, max, w)
    ensures forall k :: k in Table(visits + [v], max) ==>
              k in Table(visits, max) && Table(visits + [v], max)[k] == Table(visits, max)[k]
  {
    NextVisit(visits, v, max, w);
  }

  // ---------------------------------------------------------------- longer waits

  function Name(i: nat): Id {
    Id(seq(i, _ => 'k'))
  }

  function Rush(m: nat): seq<Visit> {
    if m == 0 then [] else Rush(m - 1) + [Visit(Name(m), 0.0, 0.0)]
  }

  ghost predicate AllAtZero(actions: map<Id, real>, m: nat) {
    |actions| == m && forall k :: k in actions ==> actions[k] == 0.0 && 1 <= |k.text| <= m
  }

  lemma NextVisit(visits: seq<Visit>, v: Visit, max: nat, w: Window)
    ensures Table(visits + [v], max) == Judge(Table(visits, max), v.key, v.start, max).0
    ensures AdmittedIn(visits + [v], max, w) == AdmittedIn(visits, max, w)
            + (if Judge(Table(visits, max), v.key, v.start, max).1 == Admitted && Inside(w, v.start) then 1 else 0)
  {
    assert (visits + [v])[..|visits|] == visits;
  }

  lemma RushOne(actions: map<Id, real>, m: nat, max: nat)
    requires AllAtZero(actions, m) && m < max
    ensures var (after, verdict) := Judge(actions, Name(m + 1), 0.0, max);
            verdict == Admitted && AllAtZero(after, m + 1)
  {
    assert |Name(m + 1).text| == m + 1;
    assert Kept(actions, 0.0 - DAY) == actions;
    SubsetSize(Recent(actions, 0.0 - MINUTE), actions.Keys);
    assert actions[Name(m + 1) := 0.0].Keys == actions.Keys + {Name(m + 1)};
  }

  lemma {:induction false} RushIsAdmitted(m: nat, max: nat)
    requires m <= max
    ensures AllAtZero(Table(Rush(m), max), m) && AdmittedIn(Rush(m), max, Window(0.0, true)) == m
  {
    hide Judge, AllAtZero, Name;
    if m == 0 {
      NothingYet(max);
    } else {
      RushIsAdmitted(m - 1, max);
      NextVisit(Rush(m - 1), Visit(Name(m), 0.0, 0.0), max, Window(0.0, true));
      RushOne(Table(Rush(m - 1), max), m - 1, max);
    }
  }

  lemma NothingYet(max: nat)
    ensures AllAtZero(Table([], max), 0)
  {
  }

  /** `max` admissions at time zero, one a day later that purges them, then one that had been waiting. */
  function LateComer(max: nat, e: real): seq<Visit> {
    Rush(max) + [Visit(Name(max + 1), DAY + e, DAY + e)] + [Visit(Name(0), MINUTE - e, DAY + e)]
  }

  lemma PurgeThenAdmit(actions: map<Id, real>, max: nat, e: real)
    requires AllAtZero(actions, max) && max >= 2 && 0.0 < e < MINUTE
    ensures var (purged, first) := Judge(actions, Name(max + 1), DAY + e, max);
            var (after, second) := Judge(purged, Name(0), MINUTE - e, max);
            first == Admitted && second == Admitted
  {
    assert |Name(max + 1).text| == max + 1 && |Name(0).text| == 0;
    assert Kept(actions, DAY + e - DAY) == map[];
    var purged := map[Name(max + 1) := DAY + e];
    assert Judge(actions, Name(max + 1), DAY + e, max) == (purged, Admitted);
    assert Kept(purged, MINUTE - e - DAY) == purged;
    assert Recent(purged, MINUTE - e - MINUTE) == {Name(max + 1)};
  }

  lemma LateComerIsAdmitted(max: nat, e: real)
    requires max >= 2 && 0.0 < e < MINUTE
    ensures AdmittedIn(LateComer(max, e), max, Window(0.0, true)) == max + 1
  {
    hide Judge, AllAtZero, Name, Rush;
    var w := Window(0.0, true);
    var c, b := Visit(Name(max + 1), DAY + e, DAY + e), Visit(Name(0), MINUTE - e, DAY + e);
    RushIsAdmitted(max, max);
    PurgeThenAdmit(Table(Rush(max), max), max, e);
    NextVisit(Rush(max), c, max, w);
    NextVisit(Rush(max) + [c], b, max, w);
  }

  lemma {:induction false} RushTimes(m: nat)
    ensures forall i :: 0 <= i < |Rush(m)| ==> Rush(m)[i].start == 0.0 && Rush(m)[i].at == 0.0
  {
    if m > 0 {
      RushTimes(m - 1);
    }
  }

  lemma LateComerIsPlausible(max: nat, e: real, wait: real)
    requires 0.0 < e < MINUTE && DAY - MINUTE + 2.0 * e <= wait
    ensures Plausible(LateComer(max, e), wait)
  {
    hide Rush, Name;
    RushTimes(max);
    var n := |Rush(max)|;
    var v := LateComer(max, e);
    assert |v| == n + 2 && v[n].at == v[n + 1].at == DAY + e;
    assert forall i :: 0 <= i < n ==> v[i].start == 0.0 && v[i].at == 0.0;
  }

  ghost predicate AlwaysWithinBudget(max: nat, wait: real) {
    forall visits, w :: Plausible(visits, wait) ==> AdmittedIn(visits, max, w) <= max
  }

  /** The budget is a true sliding window exactly when the limit is one or no lock wait exceeds a day
      less a minute. */
  lemma SlidingWindowExactlyWhen(max: nat, wait: real)
    requires max >= 1 && wait >= 0.0
    ensures AlwaysWithinBudget(max, wait) <==> max == 1 || wait <= DAY - MINUTE
  {
    hide AdmittedIn, Plausible;
    if max == 1 || wait <= DAY - MINUTE {
      forall visits, w | Plausible(visits, wait) ensures AdmittedIn(visits, max, w) <= max {
        if max == 1 {
          LimitOfOne(visits, w);
        } else {
          WindowInvariant(visits, max, wait, w);
        }
      }
    } else {
      var spare := wait - (DAY - MINUTE);
      var e := if spare / 2.0 < 1.0 then spare / 2.0 else 1.0;
      LateComerIsPlausible(max, e, wait);
      LateComerIsAdmitted(max, e);
      assert AdmittedIn(LateComer(max, e), max, Window(0.0, true)) > max;
    }
  }
}
