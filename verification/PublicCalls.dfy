/** ReservePublicDemo as a whole: a budget transaction, and later a Reserve under a key derived from the
    public one. Calls of any number of clients interleave between the two on one clock. */
module PublicCalls {
  import opened Domain
  import opened PublicBudget

  /** How a Reserve ends: rolled back, a refusal stored under the key, or a reservation. */
  datatype Landing = NoTrace | StoredRefusal | Reservation

  /** The two tables, what each key was admitted for and was given, and which reservations came so late
      that the action row of their key was gone. */
  datatype Desk = Desk(
    actions: map<Id, real>, replays: map<Id, real>, admitted: multiset<Id>, created: multiset<Id>, late: multiset<Id>)

  /** The budget transaction, when it is not refused. Both purges and the admission commit together. */
  function Enter(d: Desk, key: Id, at: real, max: nat): Desk {
    var (actions, verdict) := Judge(d.actions, key, at, max);
    d.(actions := actions, replays := Unexpired(d.replays, at),
       admitted := if verdict == Admitted then d.admitted[key := d.admitted[key] + 1] else d.admitted)
  }

  /** Reserve: a replay row answers, a missing one lets the request through. */
  function Land(d: Desk, key: Id, at: real, landing: Landing): Desk {
    if key in d.replays || landing == NoTrace then d
    else if landing == StoredRefusal then d.(replays := d.replays[key := at])
    else d.(replays := d.replays[key := at], created := d.created[key := d.created[key] + 1],
            late := if key in d.actions then d.late else d.late[key := d.late[key] + 1])
  }

  // ---------------------------------------------------------------- interleaved calls

  datatype Event = Enters(call: nat, key: Id, at: real) | Lands(call: nat, at: real, landing: Landing)

  /** A call between its budget transaction and its Reserve. */
  datatype Guest = Guest(key: Id, since: real)

  datatype Hall = Hall(desk: Desk, waiting: map<nat, Guest>)

  const OPENING: Hall := Hall(Desk(map[], map[], multiset{}, multiset{}, multiset{}), map[])

  /** A refused call goes away; only calls that entered can land. */
  function Attend(h: Hall, e: Event, max: nat): Hall {
    match e
    case Enters(i, key, at) =>
      if Judge(h.desk.actions, key, at, max).1 == Limited then h
      else Hall(Enter(h.desk, key, at, max), h.waiting[i := Guest(key, at)])
    case Lands(i, at, landing) =>
      if i !in h.waiting then h
      else Hall(Land(h.desk, h.waiting[i].key, at, landing), h.waiting - {i})
  }

  function Day(events: seq<Event>, max: nat): Hall {
    if events == [] then OPENING else Attend(Day(events[..|events| - 1], max), events[|events| - 1], max)
  }

  /** The clock does not go backwards. */
  ghost predicate Clocked(events: seq<Event>) {
    forall i, j :: 0 <= i < j < |events| ==> events[i].at <= events[j].at
  }

  /** Every Reserve comes at most `gap` after its budget transaction. */
  ghost predicate Prompt(events: seq<Event>, max: nat, gap: real) {
    forall i :: 0 <= i < |events| ==> PromptAt(Day(events[..i], max), events[i], gap)
  }

  predicate PromptAt(h: Hall, e: Event, gap: real) {
    e.Lands? && e.call in h.waiting ==> e.at - h.waiting[e.call].since <= gap
  }

  ghost predicate AllBefore(events: seq<Event>, now: real) {
    forall i :: 0 <= i < |events| ==> events[i].at <= now
  }

  // ---------------------------------------------------------------- what the purges keep

  lemma JudgedRow(actions: map<Id, real>, key: Id, start: real, max: nat, k: Id)
    requires Judge(actions, key, start, max).1 != Limited
    ensures var (after, verdict) := Judge(actions, key, start, max);
            && key in after && after[key] >= start - DAY
            && (k in actions && actions[k] >= start - DAY ==> k in after)
            && (k in after ==>
                  if verdict == Admitted && k == key then after[k] == start
                  else k in actions && after[k] == actions[k] >= start - DAY)
  {
  }

  /** A purge that removes a replay row leaves no action row admitted before that replay row was written. */
  lemma PurgesAreCoupled(d: Desk, key: Id, at: real, max: nat, k: Id, j: Id)
    requires Judge(d.actions, key, at, max).1 != Limited
    requires k in d.replays && k !in Enter(d, key, at, max).replays && j in Enter(d, key, at, max).actions
    ensures Enter(d, key, at, max).actions[j] > d.replays[k]
  {
    hide Judge;
    JudgedRow(d.actions, key, at, max, j);
  }

  /** An action row younger than its key's replay row is an admission not yet spent. */
  ghost predicate Coupled(d: Desk, now: real) {
    && (forall k :: k in d.actions ==> d.actions[k] <= now)
    && (forall k :: d.created[k] <= d.admitted[k] + d.late[k])
    && (forall k :: k in d.actions && (k in d.replays ==> d.replays[k] < d.actions[k]) ==>
          d.created[k] < d.admitted[k] + d.late[k])
  }

  lemma EnterKeepsCoupled(d: Desk, key: Id, at: real, max: nat, now: real)
    requires Coupled(d, now) && now <= at && Judge(d.actions, key, at, max).1 != Limited
    ensures Coupled(Enter(d, key, at, max), at)
  {
    hide Judge;
    var n := Enter(d, key, at, max);
    forall k
      ensures k in n.actions ==> n.actions[k] <= at
      ensures n.created[k] <= n.admitted[k] + n.late[k]
      ensures k in n.actions && (k in n.replays ==> n.replays[k] < n.actions[k]) ==>
                n.created[k] < n.admitted[k] + n.late[k]
    {
      JudgedRow(d.actions, key, at, max, k);
      assert d.created[k] <= d.admitted[k] + d.late[k];
    }
  }

  lemma LandKeepsCoupled(d: Desk, key: Id, at: real, landing: Landing, now: real)
    requires Coupled(d, now) && now <= at
    ensures Coupled(Land(d, key, at, landing), at)
  {
    assert key in d.actions && key !in d.replays ==> d.created[key] < d.admitted[key] + d.late[key];
    var n := Land(d, key, at, landing);
    forall k
      ensures n.created[k] <= n.admitted[k] + n.late[k]
      ensures k in n.actions && (k in n.replays ==> n.replays[k] < n.actions[k]) ==>
                n.created[k] < n.admitted[k] + n.late[k]
    {
      assert d.created[k] <= d.admitted[k] + d.late[k];
    }
  }

  lemma {:induction false} CoupledDay(events: seq<Event>, max: nat, now: real)
    requires Clocked(events) && AllBefore(events, now)
    ensures Coupled(Day(events, max).desk, now)
  {
    hide Judge, Enter, Land;
    if events == [] {
      assert Coupled(OPENING.desk, now);
    } else {
      var init, e := events[..|events| - 1], events[|events| - 1];
      assert AllBefore(init, e.at);
      CoupledDay(init, max, e.at);
      var h := Day(init, max);
      if e.Enters? && Judge(h.desk.actions, e.key, e.at, max).1 != Limited {
        EnterKeepsCoupled(h.desk, e.key, e.at, max, e.at);
      } else if e.Lands? && e.call in h.waiting {
        LandKeepsCoupled(h.desk, h.waiting[e.call].key, e.at, e.landing, e.at);
      }
    }
  }

  /** However calls interleave and however long they take, reservations exceed admissions at most by the
      reservations that came after their key's action row was purged. */
  lemma OnlyLateOnesAreUnadmitted(events: seq<Event>, max: nat, now: real)
    requires Clocked(events) && AllBefore(events, now)
    ensures Day(events, max).desk.created <= Day(events, max).desk.admitted + Day(events, max).desk.late
  {
    hide Day;
    CoupledDay(events, max, now);
  }

  // ---------------------------------------------------------------- no time between the two halves

  /** Calls that entered at the present moment still have an action row, no older than a day. */
  ghost predicate Present(h: Hall, now: real) {
    forall i :: i in h.waiting ==>
      && h.waiting[i].since <= now
      && (h.waiting[i].since == now ==>
            h.waiting[i].key in h.desk.actions && h.desk.actions[h.waiting[i].key] >= now - DAY)
  }

  lemma PresentLater(h: Hall, t: real, now: real)
    requires Present(h, t) && t <= now
    ensures Present(h, now)
  {
  }

  lemma EnterKeepsPresent(h: Hall, i: nat, key: Id, at: real, max: nat)
    requires Present(h, at)
    ensures Present(Attend(h, Enters(i, key, at), max), at)
  {
    hide Judge;
    if Judge(h.desk.actions, key, at, max).1 != Limited {
      forall j | j in h.waiting {
        JudgedRow(h.desk.actions, key, at, max, h.waiting[j].key);
      }
      JudgedRow(h.desk.actions, key, at, max, key);
    }
  }

  lemma {:induction false} NobodyIsLate(events: seq<Event>, max: nat, now: real)
    requires Clocked(events) && AllBefore(events, now) && Prompt(events, max, 0.0)
    ensures Present(Day(events, max), now) && Day(events, max).desk.late == multiset{}
  {
    hide Judge, Present;
    if events == [] {
      NobodyWaits(now);
    } else {
      var init, e := events[..|events| - 1], events[|events| - 1];
      assert AllBefore(init, e.at);
      PromptBefore(events, max, 0.0);
      NobodyIsLate(init, max, e.at);
      var h := Day(init, max);
      match e {
        case Enters(i, key, at) => EnterKeepsPresent(h, i, key, at, max);
        case Lands(i, at, landing) =>
          if i in h.waiting {
            LandNow(h, i, at, landing, max);
          }
      }
      PresentLater(Day(events, max), e.at, now);
    }
  }

  lemma NobodyWaits(now: real)
    ensures Present(OPENING, now)
  {
  }

  lemma PromptBefore(events: seq<Event>, max: nat, gap: real)
    requires Prompt(events, max, gap) && events != []
    ensures var init := events[..|events| - 1];
            Prompt(init, max, gap) && PromptAt(Day(init, max), events[|events| - 1], gap)
  {
    hide Day, PromptAt;
    var init := events[..|events| - 1];
    forall i | 0 <= i < |init| ensures PromptAt(Day(init[..i], max), init[i], gap) {
      assert init[..i] == events[..i];
    }
  }

  lemma LandNow(h: Hall, i: nat, at: real, landing: Landing, max: nat)
    requires Present(h, at) && i in h.waiting && at - h.waiting[i].since <= 0.0 && h.desk.late == multiset{}
    ensures var n := Attend(h, Lands(i, at, landing), max); Present(n, at) && n.desk.late == multiset{}
  {
  }

  // ---------------------------------------------------------------- any time between them

  /** A call is admitted and lands; a day later the same key is a repeat; before that repeat lands another
      call purges both rows of the key. */
  function Overtaken(k: Id, j: Id, gap: real): seq<Event> {
    [Enters(0, k, 0.0), Lands(0, 0.0, Reservation), Enters(1, k, DAY), Enters(2, j, DAY + gap / 2.0),
     Lands(1, DAY + gap, Reservation)]
  }

  lemma DayNext(events: seq<Event>, e: Event, max: nat)
    ensures Day(events + [e], max) == Attend(Day(events, max), e, max)
  {
    assert (events + [e])[..|events|] == events;
  }

  /** The desk before the repeat lands. */
  function Purged(k: Id, j: Id, gap: real): Desk {
    Desk(map[j := DAY + gap / 2.0], map[], multiset{k, j}, multiset{k}, multiset{})
  }

  lemma FirstCall(k: Id, max: nat)
    requires max >= 1
    ensures Day([Enters(0, k, 0.0), Lands(0, 0.0, Reservation)], max)
            == Hall(Desk(map[k := 0.0], map[k := 0.0], multiset{k}, multiset{k}, multiset{}), map[])
  {
    var a, b := Enters(0, k, 0.0), Lands(0, 0.0, Reservation);
    DayNext([], a, max);
    DayNext([a], b, max);
    assert [] + [a] == [a] && [a] + [b] == [a, b];
    assert Kept(map[], 0.0 - DAY) == map[] && Recent(map[], 0.0 - MINUTE) == {} && Unexpired(map[], 0.0) == map[];
    assert Day([a], max) == Hall(Desk(map[k := 0.0], map[], multiset{k}, multiset{}, multiset{}),
                                 map[0 := Guest(k, 0.0)]);
  }

  lemma RepeatEnters(k: Id, max: nat)
    requires max >= 1
    ensures var h := Hall(Desk(map[k := 0.0], map[k := 0.0], multiset{k}, multiset{k}, multiset{}), map[]);
            Attend(h, Enters(1, k, DAY), max) == h.(waiting := map[1 := Guest(k, DAY)])
  {
    assert Kept(map[k := 0.0], DAY - DAY) == map[k := 0.0] && Unexpired(map[k := 0.0], DAY) == map[k := 0.0];
  }

  lemma OtherPurges(k: Id, j: Id, max: nat, gap: real)
    requires max >= 1 && gap > 0.0 && k != j
    ensures var h := Hall(Desk(map[k := 0.0], map[k := 0.0], multiset{k}, multiset{k}, multiset{}),
                          map[1 := Guest(k, DAY)]);
            Attend(h, Enters(2, j, DAY + gap / 2.0), max)
            == Hall(Purged(k, j, gap), map[1 := Guest(k, DAY), 2 := Guest(j, DAY + gap / 2.0)])
  {
    var at := DAY + gap / 2.0;
    assert Kept(map[k := 0.0], at - DAY) == map[] && Unexpired(map[k := 0.0], at) == map[];
    assert Recent(map[], at - MINUTE) == {};
  }

  /** Two reservations for one admission. */
  lemma RepeatAfterPurge(k: Id, j: Id, max: nat, gap: real)
    requires max >= 1 && gap > 0.0 && k != j
    ensures var d := Day(Overtaken(k, j, gap), max).desk; d.created[k] == 2 && d.admitted[k] == 1
    ensures Clocked(Overtaken(k, j, gap)) && Prompt(Overtaken(k, j, gap), max, gap)
  {
    hide Judge, Enter, Land, Day, Attend;
    var v := Overtaken(k, j, gap);
    FirstCall(k, max);
    RepeatEnters(k, max);
    OtherPurges(k, j, max, gap);
    assert v[..2] == [v[0], v[1]] && v[..3] == v[..2] + [v[2]] && v[..4] == v[..3] + [v[3]] && v == v[..4] + [v[4]];
    DayNext(v[..2], v[2], max);
    DayNext(v[..3], v[3], max);
    DayNext(v[..4], v[4], max);
    RepeatLands(k, j, max, gap);
    EarlierArePrompt(k, j, max, gap);
  }

  lemma RepeatLands(k: Id, j: Id, max: nat, gap: real)
    requires gap > 0.0 && k != j
    ensures var h := Hall(Purged(k, j, gap), map[1 := Guest(k, DAY), 2 := Guest(j, DAY + gap / 2.0)]);
            var d := Attend(h, Lands(1, DAY + gap, Reservation), max).desk;
            d.created[k] == 2 && d.admitted[k] == 1
  {
  }

  lemma EarlierArePrompt(k: Id, j: Id, max: nat, gap: real)
    requires max >= 1 && gap > 0.0 && k != j
    requires Day(Overtaken(k, j, gap)[..4], max).waiting == map[1 := Guest(k, DAY), 2 := Guest(j, DAY + gap / 2.0)]
    ensures Prompt(Overtaken(k, j, gap), max, gap)
  {
    hide Day;
    var v := Overtaken(k, j, gap);
    forall i | 0 <= i < |v| ensures PromptAt(Day(v[..i], max), v[i], gap) {
      if i == 1 {
        FirstWaits(k, max);
        assert v[..1] == [v[0]];
      }
    }
  }

  lemma FirstWaits(k: Id, max: nat)
    requires max >= 1
    ensures Day([Enters(0, k, 0.0)], max).waiting == map[0 := Guest(k, 0.0)]
  {
    DayNext([], Enters(0, k, 0.0), max);
    assert [] + [Enters(0, k, 0.0)] == [Enters(0, k, 0.0)];
    assert Kept(map[], 0.0 - DAY) == map[] && Recent(map[], 0.0 - MINUTE) == {};
  }

  ghost predicate AlwaysAdmitted(max: nat, gap: real) {
    forall events :: Clocked(events) && Prompt(events, max, gap) ==>
      Day(events, max).desk.created <= Day(events, max).desk.admitted
  }

  /** For interleaved calls, every new public reservation has a budget admission of its own exactly when no
      time passes between a call's budget transaction and its Reserve. */
  lemma AdmittedExactlyWhen(max: nat, gap: real)
    requires max >= 1 && gap >= 0.0
    ensures AlwaysAdmitted(max, gap) <==> gap == 0.0
  {
    hide Day, Clocked, Prompt;
    if gap == 0.0 {
      forall events | Clocked(events) && Prompt(events, max, gap)
        ensures Day(events, max).desk.created <= Day(events, max).desk.admitted
      {
        var now := LastTime(events);
        NobodyIsLate(events, max, now);
        OnlyLateOnesAreUnadmitted(events, max, now);
      }
    } else {
      var k, j := Id("k"), Id("j");
      RepeatAfterPurge(k, j, max, gap);
      var d := Day(Overtaken(k, j, gap), max).desk;
      assert !(d.created <= d.admitted);
    }
  }

  lemma LastTime(events: seq<Event>) returns (now: real)
    requires Clocked(events)
    ensures AllBefore(events, now)
  {
    now := if events == [] then 0.0 else events[|events| - 1].at;
  }

  // ---------------------------------------------------------------- one call at a time

  datatype PublicCall = PublicCall(key: Id, admitAt: real, reserveAt: real, landing: Landing)

  /** Each call lands before the next one enters. */
  function InTurn(calls: seq<PublicCall>): seq<Event> {
    if calls == [] then []
    else
      var n, c := |calls| - 1, calls[|calls| - 1];
      InTurn(calls[..n]) + [Enters(n, c.key, c.admitAt)] + [Lands(n, c.reserveAt, c.landing)]
  }

  ghost predicate OneByOne(calls: seq<PublicCall>) {
    && (forall i :: 0 <= i < |calls| ==> calls[i].admitAt <= calls[i].reserveAt)
    && (forall i, j :: 0 <= i < j < |calls| ==> calls[i].reserveAt <= calls[j].admitAt)
  }

  lemma {:induction false} InTurnIsClocked(calls: seq<PublicCall>, now: real)
    requires OneByOne(calls) && forall i :: 0 <= i < |calls| ==> calls[i].reserveAt <= now
    ensures Clocked(InTurn(calls)) && AllBefore(InTurn(calls), now)
  {
    if calls != [] {
      InTurnIsClocked(calls[..|calls| - 1], calls[|calls| - 1].admitAt);
    }
  }

  lemma {:induction false} InTurnNobodyIsLate(calls: seq<PublicCall>, max: nat)
    ensures Day(InTurn(calls), max).waiting == map[] && Day(InTurn(calls), max).desk.late == multiset{}
  {
    hide Judge;
    if calls != [] {
      var n, c := |calls| - 1, calls[|calls| - 1];
      InTurnNobodyIsLate(calls[..n], max);
      var before, enter, land := InTurn(calls[..n]), Enters(n, c.key, c.admitAt), Lands(n, c.reserveAt, c.landing);
      DayNext(before, enter, max);
      DayNext(before + [enter], land, max);
      if Judge(Day(before, max).desk.actions, c.key, c.admitAt, max).1 != Limited {
        JudgedRow(Day(before, max).desk.actions, c.key, c.admitAt, max, c.key);
      }
    }
  }

  /** Without overlap every new public reservation has its own admission, however long the calls take. */
  lemma EachReservationIsAdmitted(calls: seq<PublicCall>, max: nat)
    requires OneByOne(calls)
    ensures Day(InTurn(calls), max).desk.created <= Day(InTurn(calls), max).desk.admitted
  {
    hide Day, InTurn;
    var now := if calls == [] then 0.0 else calls[|calls| - 1].reserveAt;
    InTurnIsClocked(calls, now);
    InTurnNobodyIsLate(calls, max);
    OnlyLateOnesAreUnadmitted(InTurn(calls), max, now);
  }
}
