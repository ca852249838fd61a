/** Idempotency over whole runs: what the callers of one key were told, and what was created for them. */
module ExactlyOnce {
  import opened Domain
  import opened Tables
  import opened Fingerprint
  import opened Ledger
  import opened Scripts
  import opened Locking
  import opened Machine
  import opened MachineProofs

  // ---------------------------------------------------------------- the story of one key

  /** The answers given under a key since it was last purged. */
  function Story(trace: seq<Mark>, k: Id): seq<Mark> {
    if trace == [] then []
    else
      var before, m := Story(trace[..|trace| - 1], k), trace[|trace| - 1];
      match m
      case Told(c, _) => if c.ReserveCall? && c.key == k then before + [m] else before
      case Forgot(ks) => if k in ks then [] else before
  }

  lemma StoryNext(trace: seq<Mark>, m: Mark, k: Id)
    ensures Story(trace + [m], k) ==
            match m
            case Told(c, _) => if c.ReserveCall? && c.key == k then Story(trace, k) + [m] else Story(trace, k)
            case Forgot(ks) => if k in ks then [] else Story(trace, k)
  {
    assert (trace + [m])[..|trace|] == trace;
  }

  function FirstAnswer(a: Response): Answer {
    match a
    case Accepted(c) => Created(c)
    case Declined(r) => Refused(r)
  }

  predicate IsReserve(m: Mark) {
    m.Told? && m.call.ReserveCall? && m.call.quantity >= 1
  }

  /** The first answer is the one stored in the row. */
  predicate Original(m: Mark, row: KeyRow) {
    && IsReserve(m) && row.response.Some? && m.answer == FirstAnswer(row.response.value)
    && row.userId == m.call.userId && row.fingerprint == ReservationText(m.call.saleId, m.call.userId, m.call.quantity)
  }

  predicate Later(m: Mark, row: KeyRow) {
    IsReserve(m) && m.answer == ReplayAnswer(row, m.call)
  }

  predicate StoryOk(story: seq<Mark>, row: Option<KeyRow>) {
    match row
    case None => story == []
    case Some(r) => |story| >= 1 && Original(story[0], r) && forall i :: 1 <= i < |story| ==> Later(story[i], r)
  }

  ghost predicate StoriesOk(trace: seq<Mark>, keys: map<Id, KeyRow>) {
    forall k :: StoryOk(Story(trace, k), Get(keys, k))
  }

  // ---------------------------------------------------------------- the reservations created

  function MadeBy(m: Mark): set<Id> {
    if m.Told? && m.answer.Created? then {m.answer.receipt.reservationId} else {}
  }

  function Made(trace: seq<Mark>): set<Id> {
    if trace == [] then {} else Made(trace[..|trace| - 1]) + MadeBy(trace[|trace| - 1])
  }

  function Creations(trace: seq<Mark>): nat {
    if trace == [] then 0
    else Creations(trace[..|trace| - 1]) + (if MadeBy(trace[|trace| - 1]) == {} then 0 else 1)
  }

  /** Each creation told made a reservation of its own, and there are no other reservations. */
  predicate MadeOk(trace: seq<Mark>, reservations: map<Id, Reservation>) {
    Made(trace) == reservations.Keys && Creations(trace) == |Made(trace)|
  }

  ghost predicate Honest(s: State) {
    StoriesOk(s.trace, s.db.keys) && MadeOk(s.trace, s.db.reservations)
  }

  // ---------------------------------------------------------------- steps

  lemma {:induction false} ExpireKeepsKeys(g: Db, batch: seq<Due>)
    ensures var d := ExpireAll(g, batch); d.keys == g.keys && d.reservations.Keys == g.reservations.Keys
  {
    if batch != [] {
      ExpireKeepsKeys(g, batch[..|batch| - 1]);
    }
  }

  lemma MoverKeepsKeys(g: Db, t: Txn, d: Db)
    requires IsMover(t) && CommitsAs(g, t, d)
    ensures d.keys == g.keys && d.reservations.Keys == g.reservations.Keys
  {
    hide BatchOk, ExpireAll, Move, CanMove, Pay, CanPay;
    match t.phase.goal
    case Moves(oid, _) => MoveKeepsKeys(g, t.call.rid, oid, t.call.to);
    case Expires(batch) => ExpireKeepsKeys(g, batch);
    case Pays(pid, _, _) => PayKeepsKeys(g, t.call.payKey, pid, t.call.oid, t.call.outcome);
  }

  lemma MoveKeepsKeys(g: Db, rid: Id, oid: Id, to: ReservationState)
    requires CanMove(g, rid, oid, to)
    ensures var d := Move(g, rid, oid, to); d.keys == g.keys && d.reservations.Keys == g.reservations.Keys
  {
  }

  lemma PayKeepsKeys(g: Db, key: Id, pid: Id, oid: Id, outcome: Outcome)
    requires CanPay(g, key, oid, outcome)
    requires outcome == Successful ==> CanMove(g, g.orders[oid].reservationId, oid, Paid)
    ensures var d := Pay(g, key, pid, oid, outcome); d.keys == g.keys && d.reservations.Keys == g.reservations.Keys
  {
  }

  ghost predicate Stores(g: Db, t: Txn, d: Db)
    requires t.phase.Working? && !IsMover(t)
  {
    var m := Told(t.call, CommitAnswer(t.phase.goal));
    && IsReserve(m) && t.call.key !in g.keys && t.call.key in d.keys
    && d.keys == g.keys[t.call.key := d.keys[t.call.key]] && Original(m, d.keys[t.call.key])
    && d.reservations.Keys == g.reservations.Keys + MadeBy(m) && g.reservations.Keys !! MadeBy(m)
  }

  lemma OpenStores(g: Db, t: Txn, d: Db)
    requires t.phase.Working? && t.phase.goal.Opens? && CommitsAs(g, t, d)
    ensures Stores(g, t, d)
  {
    hide ReservationText;
    var w := t.phase.goal.w;
    assert d.keys[t.call.key] == AcceptedRow(w);
    assert Original(Told(t.call, CommitAnswer(t.phase.goal)), AcceptedRow(w));
  }

  lemma RefuseStores(g: Db, t: Txn, d: Db)
    requires t.phase.Working? && (t.phase.goal.Refuses? || t.phase.goal.Loses?) && CommitsAs(g, t, d)
    ensures Stores(g, t, d)
  {
    hide ReservationText;
    var refusal := if t.phase.goal.Loses? then ProductSoldOut else t.phase.goal.refusal;
    assert d.keys[t.call.key] == t.phase.goal.row.(response := Some(Declined(refusal)));
    assert d.reservations == g.reservations;
  }

  lemma StoriesTold(trace: seq<Mark>, keys: map<Id, KeyRow>, m: Mark, row: KeyRow)
    requires StoriesOk(trace, keys) && IsReserve(m) && m.call.key !in keys && Original(m, row)
    ensures StoriesOk(trace + [m], keys[m.call.key := row])
  {
    forall k ensures StoryOk(Story(trace + [m], k), Get(keys[m.call.key := row], k)) {
      StoryNext(trace, m, k);
      assert StoryOk(Story(trace, k), Get(keys, k));
    }
  }

  lemma StoriesRepeat(trace: seq<Mark>, keys: map<Id, KeyRow>, m: Mark)
    requires StoriesOk(trace, keys) && IsReserve(m) && m.call.key in keys && Later(m, keys[m.call.key])
    ensures StoriesOk(trace + [m], keys)
  {
    forall k ensures StoryOk(Story(trace + [m], k), Get(keys, k)) {
      StoryNext(trace, m, k);
      assert StoryOk(Story(trace, k), Get(keys, k));
    }
  }

  lemma StoriesForgot(trace: seq<Mark>, keys: map<Id, KeyRow>, gone: set<Id>)
    requires StoriesOk(trace, keys)
    ensures StoriesOk(trace + [Forgot(gone)], keys - gone)
  {
    forall k ensures StoryOk(Story(trace + [Forgot(gone)], k), Get(keys - gone, k)) {
      StoryNext(trace, Forgot(gone), k);
      assert StoryOk(Story(trace, k), Get(keys, k));
    }
  }

  lemma MadeNext(trace: seq<Mark>, m: Mark)
    ensures Made(trace + [m]) == Made(trace) + MadeBy(m)
    ensures Creations(trace + [m]) == Creations(trace) + (if MadeBy(m) == {} then 0 else 1)
  {
    assert (trace + [m])[..|trace|] == trace;
  }

  lemma HonestCommit(s: State, tid: nat)
    requires Good(s) && Honest(s) && Enabled(s, Commit(tid))
    ensures Honest(After(s, Commit(tid)))
  {
    hide Inv, TxnOk, CommitsAs, StoriesOk, Original, Story, Made, Creations, Publish, Apart;
    var t := s.txns[tid];
    var d := View(s.db, t);
    CommitRefines(s.db, t);
    if IsMover(t) {
      MoverKeepsKeys(s.db, t, d);
    } else {
      if t.phase.goal.Opens? {
        OpenStores(s.db, t, d);
      } else {
        RefuseStores(s.db, t, d);
      }
      var m := Told(t.call, CommitAnswer(t.phase.goal));
      StoriesTold(s.trace, s.db.keys, m, d.keys[t.call.key]);
      MadeNext(s.trace, m);
    }
  }

  /** All other steps tell nothing and create nothing. */
  lemma QuietStep(s: State, e: Step)
    requires Enabled(s, e) && !e.Commit? && !e.ReadReplay? && !e.PurgeKeys?
    ensures After(s, e).trace == s.trace
    ensures After(s, e).db.keys == s.db.keys && After(s, e).db.reservations == s.db.reservations
  {
    if CatalogStep(e) {
      CatalogIsQuiet(s, e);
    } else {
      hide Enabled, After;
      TablesStay(s, e);
    }
  }

  lemma CatalogIsQuiet(s: State, e: Step)
    requires Enabled(s, e) && CatalogStep(e)
    ensures After(s, e).trace == s.trace
    ensures After(s, e).db.keys == s.db.keys && After(s, e).db.reservations == s.db.reservations
  {
  }

  lemma HonestReplay(s: State, tid: nat)
    requires Honest(s) && Enabled(s, ReadReplay(tid))
    ensures Honest(After(s, ReadReplay(tid)))
  {
    hide StoriesOk, Made, Creations;
    var t := s.txns[tid];
    if t.call.key in s.db.keys {
      var m := Told(t.call, ReplayAnswer(s.db.keys[t.call.key], t.call));
      StoriesRepeat(s.trace, s.db.keys, m);
      MadeNext(s.trace, m);
    }
  }

  lemma HonestPurge(s: State, now: int)
    requires Honest(s) && Enabled(s, PurgeKeys(now))
    ensures Honest(After(s, PurgeKeys(now)))
  {
    hide StoriesOk, Made, Creations;
    StoriesForgot(s.trace, s.db.keys, Overdue(s.db, now));
    MadeNext(s.trace, Forgot(Overdue(s.db, now)));
  }

  lemma HonestStep(s: State, e: Step)
    requires Good(s) && Honest(s) && Enabled(s, e)
    ensures Honest(After(s, e))
  {
    hide Good, StoriesOk, MadeOk, Enabled, After;
    match e
    case Commit(tid) => HonestCommit(s, tid);
    case ReadReplay(tid) => HonestReplay(s, tid);
    case PurgeKeys(now) => HonestPurge(s, now);
    case _ =>
      QuietStep(s, e);
  }

  lemma {:induction false} RunsAreHonest(run: seq<State>, steps: seq<Step>, db: Db)
    requires IsRun(run, steps) && Starts(run[0], db) && Inv(db) && db.keys == map[] && db.reservations == map[]
    ensures forall i :: 0 <= i < |run| ==> Honest(run[i])
    decreases |steps|
  {
    hide Inv, Good, Honest, Enabled, After;
    if steps == [] {
      StartIsHonest(run[0], db);
    } else {
      var n := |steps| - 1;
      assert IsRun(run[..n + 1], steps[..n]);
      RunsAreHonest(run[..n + 1], steps[..n], db);
      RunsKeepGood(run, steps, db);
      HonestStep(run[n], steps[n]);
    }
  }

  lemma StartIsHonest(s: State, db: Db)
    requires Starts(s, db) && db.keys == map[] && db.reservations == map[]
    ensures Honest(s)
  {
  }

  // ---------------------------------------------------------------- what a caller can rely on

  predicate SameRequest(c: Call, d: Call)
    requires c.ReserveCall? && d.ReserveCall?
  {
    c.saleId == d.saleId && c.userId == d.userId && c.quantity == d.quantity
  }

  /** The answer to a repeat of an answered request. */
  function Again(a: Answer): Answer {
    if a.Created? then Duplicate(a.receipt) else a
  }

  /** Since a key was last purged: the first caller got the real answer, every repeat of that request got
      the same reservation marked duplicate or the same refusal, everybody else got a conflict. */
  ghost predicate ToldOnce(story: seq<Mark>) {
    story == [] ||
    (IsReserve(story[0]) && (story[0].answer.Created? || story[0].answer.Refused?) &&
     forall i :: 1 <= i < |story| ==>
       IsReserve(story[i]) &&
       story[i].answer == if SameRequest(story[i].call, story[0].call) then Again(story[0].answer) else Conflict)
  }

  lemma StoryIsToldOnce(story: seq<Mark>, row: Option<KeyRow>)
    requires StoryOk(story, row)
    ensures ToldOnce(story)
  {
    if row.Some? {
      forall i | 1 <= i < |story|
        ensures story[i].answer
                == if SameRequest(story[i].call, story[0].call) then Again(story[0].answer) else Conflict
      {
        assert Later(story[i], row.value) && Original(story[0], row.value);
        var c, d := story[i].call, story[0].call;
        SameReservationRequest(c.saleId, c.userId, c.quantity, d.saleId, d.userId, d.quantity);
      }
    }
  }

  /** Idempotent exactly once, over every interleaving, with aborts and purges anywhere: the answers
      under a key are told once, creations and reservations correspond one to one, and nobody is ever
      told that a request is still in progress. */
  lemma ReserveIsExactlyOnce(run: seq<State>, steps: seq<Step>, db: Db, i: nat, k: Id)
    requires IsRun(run, steps) && Starts(run[0], db) && Inv(db) && db.keys == map[] && db.reservations == map[]
    requires i < |run|
    ensures ToldOnce(Story(run[i].trace, k))
    ensures Made(run[i].trace) == run[i].db.reservations.Keys
    ensures Creations(run[i].trace) == |run[i].db.reservations|
  {
    hide Inv, IsRun, Story;
    RunsAreHonest(run, steps, db);
    assert StoryOk(Story(run[i].trace, k), Get(run[i].db.keys, k));
    StoryIsToldOnce(Story(run[i].trace, k), Get(run[i].db.keys, k));
  }
}
