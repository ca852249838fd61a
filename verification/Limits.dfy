/** The per-user limit as the callers see it: by what they were told and by the event log. */
module Limits {
  import opened Domain
  import opened Tables
  import opened Journal
  import opened Ledger
  import opened Scripts
  import opened Locking
  import opened Machine
  import opened MachineProofs
  import opened ExactlyOnce

  /** The event log gives these units back. */
  predicate Released(log: seq<Entry>, rid: Id) {
    Entries(log, rid, Cancelled) + Entries(log, rid, Expired) > 0
  }

  function Given(m: Mark, log: seq<Entry>, sale: Id, user: Id): int {
    if m.Told? && m.answer.Created? && m.answer.receipt.saleId == sale && m.answer.receipt.userId == user
       && !Released(log, m.answer.receipt.reservationId)
    then m.answer.receipt.quantity else 0
  }

  /** The units of all successes a user was told of in a sale, less those cancelled or expired since. */
  function Outstanding(trace: seq<Mark>, log: seq<Entry>, sale: Id, user: Id): int {
    if trace == [] then 0
    else Outstanding(trace[..|trace| - 1], log, sale, user) + Given(trace[|trace| - 1], log, sale, user)
  }

  /** The columns of a reservation that nobody updates. */
  predicate SameColumns(r: Reservation, n: Reservation) {
    r.saleId == n.saleId && r.productId == n.productId && r.userId == n.userId && r.quantity == n.quantity
    && r.expiresAt == n.expiresAt
  }

  ghost predicate RowsKeep(g: Db, d: Db) {
    forall r :: r in g.reservations ==> r in d.reservations && SameColumns(g.reservations[r], d.reservations[r])
  }

  predicate Backs(m: Mark, reservations: map<Id, Reservation>) {
    m.Told? && m.answer.Created? ==>
      && m.answer.receipt.reservationId in reservations
      && ReceiptMatches(m.answer.receipt, reservations[m.answer.receipt.reservationId])
  }

  /** Every success told of is a row with these columns. */
  ghost predicate AllBacked(trace: seq<Mark>, reservations: map<Id, Reservation>) {
    forall i :: 0 <= i < |trace| ==> Backs(trace[i], reservations)
  }

  // ---------------------------------------------------------------- rows keep their columns

  lemma MoveKeepsColumns(g: Db, rid: Id, oid: Id, to: ReservationState)
    requires CanMove(g, rid, oid, to)
    ensures RowsKeep(g, Move(g, rid, oid, to))
  {
  }

  lemma RowsKeepTrans(g: Db, d: Db, e: Db)
    requires RowsKeep(g, d) && RowsKeep(d, e)
    ensures RowsKeep(g, e)
  {
  }

  lemma {:induction false} ExpireKeepsColumns(g: Db, batch: seq<Due>)
    ensures RowsKeep(g, ExpireAll(g, batch))
  {
    hide Move, CanMove;
    if batch != [] {
      var last := batch[|batch| - 1];
      var before := ExpireAll(g, batch[..|batch| - 1]);
      ExpireKeepsColumns(g, batch[..|batch| - 1]);
      if CanMove(before, last.rid, last.oid, Expired) {
        MoveKeepsColumns(before, last.rid, last.oid, Expired);
        RowsKeepTrans(g, before, ExpireAll(g, batch));
      }
    }
  }

  lemma PayKeepsColumns(g: Db, key: Id, pid: Id, oid: Id, outcome: Outcome)
    requires CanPay(g, key, oid, outcome)
    requires outcome == Successful ==> CanMove(g, g.orders[oid].reservationId, oid, Paid)
    ensures RowsKeep(g, Pay(g, key, pid, oid, outcome))
  {
    if outcome == Successful {
      MoveKeepsColumns(g, g.orders[oid].reservationId, oid, Paid);
    }
  }

  lemma OpenKeepsColumns(g: Db, w: Opening)
    requires CanOpen(g, w)
    ensures RowsKeep(g, Open(g, w))
  {
  }

  lemma SameRowsKeepColumns(g: Db, d: Db)
    requires d.reservations == g.reservations
    ensures RowsKeep(g, d)
  {
  }

  lemma CommitKeepsColumns(g: Db, t: Txn, d: Db)
    requires t.phase.Working? && CommitsAs(g, t, d)
    ensures RowsKeep(g, d)
  {
    hide BatchOk, ExpireAll, Move, CanMove, Pay, CanPay, Open, RowsKeep;
    match t.phase.goal
    case Opens(w, _) => OpenKeepsColumns(g, w);
    case Refuses(_, _) => SameRowsKeepColumns(g, d);
    case Loses(_) => SameRowsKeepColumns(g, d);
    case Moves(oid, _) => MoveKeepsColumns(g, t.call.rid, oid, t.call.to);
    case Expires(batch) => ExpireKeepsColumns(g, batch);
    case Pays(pid, _, _) => PayKeepsColumns(g, t.call.payKey, pid, t.call.oid, t.call.outcome);
  }

  lemma BackedAfter(trace: seq<Mark>, g: Db, d: Db)
    requires AllBacked(trace, g.reservations) && RowsKeep(g, d)
    ensures AllBacked(trace, d.reservations)
  {
  }

  lemma BackedCommit(s: State, tid: nat)
    requires Good(s) && AllBacked(s.trace, s.db.reservations) && Enabled(s, Commit(tid))
    ensures var n := After(s, Commit(tid)); AllBacked(n.trace, n.db.reservations)
  {
    hide Inv, TxnOk, Apart, Publish, AllBacked, RowsKeep, CommitsAs;
    var t, n := s.txns[tid], After(s, Commit(tid));
    CommitRefines(s.db, t);
    CommitKeepsColumns(s.db, t, n.db);
    BackedAfter(s.trace, s.db, n.db);
    if n.trace != s.trace {
      AnswerIsBacked(s.db, t, n.db);
      BackedOne(s.trace, Told(t.call, CommitAnswer(t.phase.goal)), n.db.reservations);
    }
  }

  lemma BackedOne(trace: seq<Mark>, m: Mark, reservations: map<Id, Reservation>)
    requires AllBacked(trace, reservations) && Backs(m, reservations)
    ensures AllBacked(trace + [m], reservations)
  {
  }

  lemma AnswerIsBacked(g: Db, t: Txn, d: Db)
    requires t.phase.Working? && (t.phase.goal.Opens? || t.phase.goal.Refuses? || t.phase.goal.Loses?)
    requires CommitsAs(g, t, d)
    ensures Backs(Told(t.call, CommitAnswer(t.phase.goal)), d.reservations)
  {
  }

  lemma BackedReplay(s: State, tid: nat)
    requires AllBacked(s.trace, s.db.reservations) && Enabled(s, ReadReplay(tid))
    ensures var n := After(s, ReadReplay(tid)); AllBacked(n.trace, n.db.reservations)
  {
    var t := s.txns[tid];
    if t.call.key in s.db.keys {
      BackedOne(s.trace, Told(t.call, ReplayAnswer(s.db.keys[t.call.key], t.call)), s.db.reservations);
    }
  }

  lemma BackedPurge(s: State, now: int)
    requires AllBacked(s.trace, s.db.reservations) && Enabled(s, PurgeKeys(now))
    ensures var n := After(s, PurgeKeys(now)); AllBacked(n.trace, n.db.reservations)
  {
    BackedOne(s.trace, Forgot(Overdue(s.db, now)), s.db.reservations);
  }

  lemma BackedStep(s: State, e: Step)
    requires Good(s) && AllBacked(s.trace, s.db.reservations) && Enabled(s, e)
    ensures AllBacked(After(s, e).trace, After(s, e).db.reservations)
  {
    hide Good, AllBacked, Enabled, After;
    match e
    case Commit(tid) => BackedCommit(s, tid);
    case ReadReplay(tid) => BackedReplay(s, tid);
    case PurgeKeys(now) => BackedPurge(s, now);
    case _ => QuietStep(s, e);
  }

  lemma {:induction false} RunsStayBacked(run: seq<State>, steps: seq<Step>, db: Db)
    requires IsRun(run, steps) && Starts(run[0], db) && Inv(db)
    ensures forall i :: 0 <= i < |run| ==> AllBacked(run[i].trace, run[i].db.reservations)
    decreases |steps|
  {
    hide Inv, Good, Enabled, After, AllBacked;
    if steps == [] {
      NothingTold(run[0], db);
    } else {
      var n := |steps| - 1;
      assert IsRun(run[..n + 1], steps[..n]);
      RunsStayBacked(run[..n + 1], steps[..n], db);
      RunsKeepGood(run, steps, db);
      BackedStep(run[n], steps[n]);
    }
  }

  lemma NothingTold(s: State, db: Db)
    requires Starts(s, db)
    ensures AllBacked(s.trace, s.db.reservations)
  {
  }

  // ---------------------------------------------------------------- told units are active units

  lemma {:induction false} MadeAtMost(trace: seq<Mark>)
    ensures |Made(trace)| <= Creations(trace)
  {
    if trace != [] {
      MadeAtMost(trace[..|trace| - 1]);
    }
  }

  /** In the reservations of a trace, the last success is a row of its own. */
  lemma LastIsNew(trace: seq<Mark>, m: map<Id, Reservation>)
    requires trace != [] && MadeOk(trace, m)
    ensures var init := trace[..|trace| - 1];
            Made(init) !! MadeBy(trace[|trace| - 1]) && MadeOk(init, m - MadeBy(trace[|trace| - 1]))
  {
    var init, own := trace[..|trace| - 1], MadeBy(trace[|trace| - 1]);
    MadeAtMost(init);
    if own == {} {
      assert m - own == m;
    } else {
      var r :| own == {r};
      assert Made(trace) == Made(init) + {r};
      assert r in Made(init) ==> Made(init) == Made(trace);
      assert (m - own).Keys == Made(init);
    }
  }

  /** The log gives back exactly the reservations the table has cancelled or expired. */
  ghost predicate ReleasesAre(log: seq<Entry>, m: map<Id, Reservation>) {
    forall r :: r in m ==> (Released(log, r) <==> m[r].state == Cancelled || m[r].state == Expired)
  }

  lemma GivenIsWeight(last: Mark, log: seq<Entry>, m: map<Id, Reservation>, sale: Id, user: Id)
    requires ReleasesAre(log, m) && Backs(last, m) && last.Told? && last.answer.Created?
    ensures Given(last, log, sale, user) == Weight(ActiveBy(sale, user), m[last.answer.receipt.reservationId])
  {
  }

  lemma {:induction false} OutstandingIsActive(
    trace: seq<Mark>, log: seq<Entry>, m: map<Id, Reservation>, sale: Id, user: Id)
    requires MadeOk(trace, m) && AllBacked(trace, m) && ReleasesAre(log, m)
    ensures Outstanding(trace, log, sale, user) == Total(ActiveBy(sale, user), m)
    decreases |trace|
  {
    hide MadeOk, Total, Released, ReceiptMatches, Weight;
    if trace == [] {
      NoRowsMade(m, sale, user);
    } else {
      var init, last := trace[..|trace| - 1], trace[|trace| - 1];
      LastIsNew(trace, m);
      BackedInit(trace, m);
      OutstandingIsActive(init, log, m - MadeBy(last), sale, user);
      if MadeBy(last) == {} {
        assert m - MadeBy(last) == m;
      } else {
        assert Backs(trace[|trace| - 1], m);
        GivenIsWeight(last, log, m, sale, user);
        TotalSplit(ActiveBy(sale, user), m, last.answer.receipt.reservationId);
      }
    }
  }

  lemma NoRowsMade(m: map<Id, Reservation>, sale: Id, user: Id)
    requires MadeOk([], m)
    ensures Total(ActiveBy(sale, user), m) == 0
  {
    assert m.Keys == {};
    assert m == map[];
  }

  lemma BackedInit(trace: seq<Mark>, m: map<Id, Reservation>)
    requires trace != [] && MadeOk(trace, m) && AllBacked(trace, m)
    ensures AllBacked(trace[..|trace| - 1], m - MadeBy(trace[|trace| - 1]))
  {
    var init, own := trace[..|trace| - 1], MadeBy(trace[|trace| - 1]);
    LastIsNew(trace, m);
    forall i | 0 <= i < |init| ensures Backs(init[i], m - own) {
      assert Backs(trace[i], m);
      MadeContains(init, i);
    }
  }

  lemma {:induction false} MadeContains(trace: seq<Mark>, i: nat)
    requires i < |trace|
    ensures MadeBy(trace[i]) <= Made(trace)
  {
    if i < |trace| - 1 {
      MadeContains(trace[..|trace| - 1], i);
    }
  }

  lemma ReleasedByState(log: seq<Entry>, inventory: map<Id, Stock>, m: map<Id, Reservation>)
    requires JournalOk(log, inventory, m)
    ensures ReleasesAre(log, m)
  {
    forall r | r in m ensures Released(log, r) <==> m[r].state == Cancelled || m[r].state == Expired {
      EachStateEnteredOnce(log, r);
    }
  }

  /** The purchase limit over every interleaving, by what callers were told: the units of a user's
      successes in a sale, less those cancelled or expired since, never exceed the sale's limit. */
  lemma ToldUnitsStayWithinLimit(run: seq<State>, steps: seq<Step>, db: Db, i: nat, sale: Id, user: Id)
    requires IsRun(run, steps) && Starts(run[0], db) && Inv(db) && db.keys == map[] && db.reservations == map[]
    requires i < |run| && sale in run[i].db.sales
    ensures Outstanding(run[i].trace, run[i].db.journal, sale, user)
            == Total(ActiveBy(sale, user), run[i].db.reservations) <= run[i].db.sales[sale].maxPerUser
  {
    hide IsRun, TxnOk, Apart, RefsOk, LedgerOk, SalesOk, OrdersOk, KeysOk, PaymentsOk, JournalOk, AllBacked, Released;
    hide StoriesOk, MadeOk;
    RunsAreHonest(run, steps, db);
    RunsStayBacked(run, steps, db);
    RunsKeepGood(run, steps, db);
    var d := run[i].db;
    assert Good(run[i]) && Honest(run[i]);
    ReleasedByState(d.journal, d.inventory, d.reservations);
    OutstandingIsActive(run[i].trace, d.journal, d.reservations, sale, user);
  }
}
