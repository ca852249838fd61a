/** The promises of the ledger, for every state of every interleaved run. */
module Safety {
  import opened Domain
  import opened Tables
  import opened Journal
  import opened Ledger
  import opened Statements
  import opened Scripts
  import opened Locking
  import opened Machine
  import opened MachineProofs

  /** A state of a run that starts on tables satisfying the invariant, such as empty ones. */
  ghost predicate Reached(run: seq<State>, steps: seq<Step>, db: Db, i: nat) {
    IsRun(run, steps) && Starts(run[0], db) && Inv(db) && i < |run|
  }

  lemma ReachedIsGood(run: seq<State>, steps: seq<Step>, db: Db, i: nat)
    requires Reached(run, steps, db, i)
    ensures Good(run[i])
  {
    hide Inv, Good, IsRun;
    RunsKeepGood(run, steps, db);
  }

  /** Per-user limit: no committed state has more active units of a user in a sale than the sale allows. */
  lemma PurchaseLimitHolds(run: seq<State>, steps: seq<Step>, db: Db, i: nat, saleId: Id, userId: Id)
    requires Reached(run, steps, db, i) && saleId in run[i].db.sales
    ensures Total(ActiveBy(saleId, userId), run[i].db.reservations) <= run[i].db.sales[saleId].maxPerUser
  {
    hide IsRun, TxnOk, Apart, RefsOk, LedgerOk, SalesOk, OrdersOk, KeysOk, PaymentsOk, JournalOk;
    ReachedIsGood(run, steps, db, i);
  }

  /** The inventory row of a product always is the sum of its reservations. */
  lemma LedgerAgrees(run: seq<State>, steps: seq<Step>, db: Db, i: nat, p: Id)
    requires Reached(run, steps, db, i) && p in run[i].db.inventory
    ensures var t := run[i].db.inventory[p];
            && t.available >= 0 && t.reserved >= 0 && t.sold >= 0
            && t.reserved == Total(Held(p), run[i].db.reservations)
            && t.sold == Total(SoldOf(p), run[i].db.reservations)
            && t.available + t.reserved + t.sold == t.expectedTotal
  {
    hide IsRun, TxnOk, Apart, RefsOk, SalesOk, LimitOk, OrdersOk, KeysOk, PaymentsOk, JournalOk;
    ReachedIsGood(run, steps, db, i);
    assert StockOk(p, run[i].db.inventory[p], run[i].db.reservations);
  }

  /** A sale never oversells: remaining, active and lost units add up to the allocation. */
  lemma SaleNeverOversells(run: seq<State>, steps: seq<Step>, db: Db, i: nat, saleId: Id)
    requires Reached(run, steps, db, i) && saleId in run[i].db.sales
    ensures var s := run[i].db.sales[saleId];
            && s.remaining >= 0 && Lost(run[i].db.journal, saleId) >= 0
            && s.remaining + Total(ActiveIn(saleId), run[i].db.reservations) + Lost(run[i].db.journal, saleId)
              == s.allocation
            && Total(ActiveIn(saleId), run[i].db.reservations) <= s.allocation
  {
    hide IsRun, TxnOk, Apart, RefsOk, LedgerOk, LimitOk, OrdersOk, KeysOk, PaymentsOk, JournalOk;
    ReachedIsGood(run, steps, db, i);
    assert SaleOk(saleId, run[i].db.sales[saleId], run[i].db.reservations, run[i].db.journal);
  }

  /** The event log replays to the tables, and no reservation was restored or sold twice. */
  lemma LogReplays(run: seq<State>, steps: seq<Step>, db: Db, i: nat, rid: Id)
    requires Reached(run, steps, db, i)
    ensures Replay(run[i].db.journal) == Some(BookOf(run[i].db.inventory, run[i].db.reservations))
    ensures Entries(run[i].db.journal, rid, Cancelled) + Entries(run[i].db.journal, rid, Expired)
            + Entries(run[i].db.journal, rid, Paid) <= 1
  {
    hide IsRun, TxnOk, Apart, RefsOk, LedgerOk, SalesOk, LimitOk, OrdersOk, KeysOk, PaymentsOk;
    ReachedIsGood(run, steps, db, i);
    EachStateEnteredOnce(run[i].db.journal, rid);
  }

  /** An order has a succeeded payment exactly when its reservation is paid, and only one. */
  lemma OnePaymentEffect(run: seq<State>, steps: seq<Step>, db: Db, i: nat, oid: Id)
    requires Reached(run, steps, db, i) && oid in run[i].db.orders
    ensures IsPaid(run[i].db.orders, run[i].db.reservations, oid) <==> exists k :: PaidFor(run[i].db.payments, k, oid)
    ensures forall k, l :: PaidFor(run[i].db.payments, k, oid) && PaidFor(run[i].db.payments, l, oid) ==> k == l
  {
    hide IsRun, TxnOk, Apart, RefsOk, LedgerOk, SalesOk, LimitOk, OrdersOk, KeysOk, JournalOk, PaidFor, IsPaid;
    ReachedIsGood(run, steps, db, i);
  }

  /** Every committed key row carries its answer. */
  lemma ClaimedKeysAreComplete(run: seq<State>, steps: seq<Step>, db: Db, i: nat, k: Id)
    requires Reached(run, steps, db, i) && k in run[i].db.keys
    ensures run[i].db.keys[k].response.Some?
  {
    hide IsRun, TxnOk, Apart, RefsOk, LedgerOk, SalesOk, LimitOk, OrdersOk, PaymentsOk, JournalOk;
    ReachedIsGood(run, steps, db, i);
    assert KeyOk(run[i].db.keys[k], run[i].db.orders, run[i].db.reservations);
  }

  /** The statement a confirm, cancel, expiry or payment is about to execute always finds its row. */
  lemma GuardsNeverMiss(run: seq<State>, steps: seq<Step>, db: Db, i: nat, tid: nat)
    requires Reached(run, steps, db, i) && tid in run[i].txns
    requires IsMover(run[i].txns[tid]) && run[i].txns[tid].plan != []
    ensures Hits(View(run[i].db, run[i].txns[tid]), run[i].txns[tid].plan[0])
  {
    hide IsRun, Inv, TxnOk, Apart;
    ReachedIsGood(run, steps, db, i);
    MoverNeverMisses(run[i].db, run[i].txns[tid]);
  }

  /** Two expiry workers, or an expiry and a cancel, never hold the same reservation. */
  lemma WorkersAreDisjoint(run: seq<State>, steps: seq<Step>, db: Db, i: nat, a: nat, b: nat, rid: Id)
    requires Reached(run, steps, db, i) && a in run[i].txns && b in run[i].txns && a != b
    ensures !(Works(run[i].txns[a], rid) && Works(run[i].txns[b], rid))
  {
    hide IsRun, Inv, Serial, Covered, Control, Works;
    ReachedIsGood(run, steps, db, i);
    assert TxnOk(run[i].db, run[i].txns[a]) && TxnOk(run[i].db, run[i].txns[b]);
    assert Apart(run[i].txns[a], run[i].txns[b]);
    WorkIsLocked(run[i].db, run[i].txns[a], rid);
    WorkIsLocked(run[i].db, run[i].txns[b], rid);
  }

  /** The transaction has set out to change the state of this reservation. */
  predicate Works(t: Txn, rid: Id) {
    t.phase.Working? &&
    match t.phase.goal
    case Moves(_, _) => t.call.MoveCall? && t.call.rid == rid
    case Expires(batch) => exists i :: 0 <= i < |batch| && batch[i].rid == rid
    case Pays(_, r, _) => r == rid
    case _ => false
  }

  lemma WorkIsLocked(g: Db, t: Txn, rid: Id)
    requires Control(g, t)
    ensures Works(t, rid) ==> ReservationLock(rid) in t.locks
  {
    if Works(t, rid) && t.phase.goal.Expires? {
      var batch := t.phase.goal.batch;
      var i :| 0 <= i < |batch| && batch[i].rid == rid;
      assert batch[i] in batch;
      assert ReservationLock(rid) in DueLocks(batch);
    }
  }

  // ---------------------------------------------------------------- expiry

  /** At most `limit` reservations changed: pending ones whose time had come, and they expired. */
  ghost predicate OnlyDueExpired(m: map<Id, Reservation>, n: map<Id, Reservation>, limit: nat, at: int) {
    exists taken: set<Id> :: |taken| <= limit && taken <= m.Keys && ExpiredExactly(m, n, taken, at)
  }

  predicate ExpiredExactly(m: map<Id, Reservation>, n: map<Id, Reservation>, taken: set<Id>, at: int) {
    && n.Keys == m.Keys
    && forall r :: r in m ==>
         if r in taken then m[r].state == Pending && m[r].expiresAt <= at && n[r] == m[r].(state := Expired)
         else n[r] == m[r]
  }

  lemma {:induction false} FewIds(batch: seq<Due>)
    ensures |IdsOf(batch)| <= |batch|
  {
    if batch != [] {
      var n := |batch| - 1;
      FewIds(batch[..n]);
      assert batch == batch[..n] + [batch[n]];
      IdsNext(batch[..n], batch[n]);
    }
  }

  lemma BatchExpiresDue(g: Db, batch: seq<Due>, c: Call)
    requires c.ExpireCall? && TakesDue(c, batch) && BatchOk(g, batch)
    ensures OnlyDueExpired(g.reservations, ExpireAll(g, batch).reservations, c.limit, c.at)
  {
    hide ExpireAll;
    MarksAreExpireAll(g, batch);
    FewIds(batch);
    var taken := IdsOf(batch);
    forall r | r in taken
      ensures r in g.reservations && g.reservations[r].state == Pending && g.reservations[r].expiresAt <= c.at
    {
      var d :| d in batch && d.rid == r;
      var i :| 0 <= i < |batch| && batch[i] == d;
      assert DueOk(g, batch[i]);
    }
    assert ExpiredExactly(g.reservations, ExpireAll(g, batch).reservations, taken, c.at);
  }

  /** Under every interleaving a committing worker changes only reservations that are still pending and
      whose time had come, and no more than its limit. */
  lemma ExpiryTakesOnlyDue(run: seq<State>, steps: seq<Step>, db: Db, i: nat, tid: nat)
    requires Reached(run, steps, db, i) && i < |steps| && steps[i] == Commit(tid)
    requires tid in run[i].txns && run[i].txns[tid].call.ExpireCall?
    ensures var c := run[i].txns[tid].call;
            OnlyDueExpired(run[i].db.reservations, run[i + 1].db.reservations, c.limit, c.at)
  {
    hide Inv, Good, OnlyDueExpired;
    ReachedIsGood(run, steps, db, i);
    assert Enabled(run[i], steps[i]) && run[i + 1] == After(run[i], steps[i]);
    WorkerCommits(run[i], tid);
  }

  lemma WorkerCommits(s: State, tid: nat)
    requires Good(s) && Enabled(s, Commit(tid)) && s.txns[tid].call.ExpireCall?
    ensures var c := s.txns[tid].call;
            OnlyDueExpired(s.db.reservations, After(s, Commit(tid)).db.reservations, c.limit, c.at)
  {
    hide Inv, TxnOk, Apart, Publish, OnlyDueExpired, BatchOk, ExpireAll;
    var t := s.txns[tid];
    assert TxnOk(s.db, t);
    CommitRefines(s.db, t);
    WorkerExpires(s.db, t);
    BatchExpiresDue(s.db, t.phase.goal.batch, t.call);
  }

  lemma WorkerExpires(g: Db, t: Txn)
    requires TxnOk(g, t) && t.phase.Working? && t.call.ExpireCall?
    ensures t.phase.goal.Expires?
  {
    hide Serial, Covered;
  }

  /** A purge forgets exactly the replay rows whose time is over. */
  lemma PurgeIsExact(s: State, now: int)
    requires Enabled(s, PurgeKeys(now))
    ensures var (keys, after) := (s.db.keys, After(s, PurgeKeys(now)).db);
            && after == s.db.(keys := after.keys)
            && forall k :: (k in after.keys <==> k in keys && keys[k].expiresAt >= now)
                           && (k in after.keys ==> after.keys[k] == keys[k])
  {
  }

  // ---------------------------------------------------------------- closing a sale

  function ReservationsOf(db: Db, saleId: Id): set<Id> {
    set r | r in db.reservations && db.reservations[r].saleId == saleId
  }

  predicate Closed(db: Db, saleId: Id) {
    saleId in db.sales && db.sales[saleId].state != Active
  }

  ghost predicate SameSale(g: Db, d: Db, saleId: Id) {
    && saleId in g.sales && saleId in d.sales && d.sales[saleId].state == g.sales[saleId].state
    && g.reservations.Keys <= d.reservations.Keys
    && (forall r :: r in d.reservations ==>
          if r in g.reservations then d.reservations[r].saleId == g.reservations[r].saleId
          else d.reservations[r].saleId != saleId)
  }

  lemma SameSaleKeeps(g: Db, d: Db, saleId: Id)
    requires SameSale(g, d, saleId)
    ensures ReservationsOf(d, saleId) == ReservationsOf(g, saleId)
  {
    forall r ensures r in ReservationsOf(d, saleId) <==> r in ReservationsOf(g, saleId) {
      if r in ReservationsOf(g, saleId) {
        assert r in g.reservations.Keys;
      }
    }
  }

  lemma MoveKeepsSale(g: Db, rid: Id, oid: Id, to: ReservationState, saleId: Id)
    requires saleId in g.sales && CanMove(g, rid, oid, to)
    ensures SameSale(g, Move(g, rid, oid, to), saleId)
  {
  }

  lemma SameSaleTrans(g: Db, d: Db, e: Db, saleId: Id)
    requires SameSale(g, d, saleId) && SameSale(d, e, saleId)
    ensures SameSale(g, e, saleId)
  {
  }

  lemma {:induction false} ExpireKeepsSale(g: Db, batch: seq<Due>, saleId: Id)
    requires saleId in g.sales
    ensures SameSale(g, ExpireAll(g, batch), saleId)
  {
    hide Move, CanMove;
    if batch != [] {
      var last := batch[|batch| - 1];
      var before := ExpireAll(g, batch[..|batch| - 1]);
      ExpireKeepsSale(g, batch[..|batch| - 1], saleId);
      if CanMove(before, last.rid, last.oid, Expired) {
        MoveKeepsSale(before, last.rid, last.oid, Expired, saleId);
        SameSaleTrans(g, before, ExpireAll(g, batch), saleId);
      }
    }
  }

  lemma PayKeepsSale(g: Db, key: Id, pid: Id, oid: Id, outcome: Outcome, saleId: Id)
    requires saleId in g.sales && CanPay(g, key, oid, outcome)
    requires outcome == Successful ==> CanMove(g, g.orders[oid].reservationId, oid, Paid)
    ensures SameSale(g, Pay(g, key, pid, oid, outcome), saleId)
  {
    if outcome == Successful {
      MoveKeepsSale(g, g.orders[oid].reservationId, oid, Paid, saleId);
    }
  }

  lemma OpenNeedsActive(g: Db, w: Opening, saleId: Id)
    requires CanOpen(g, w) && Closed(g, saleId)
    ensures SameSale(g, Open(g, w), saleId)
  {
  }

  lemma RefusalKeepsSale(g: Db, t: Txn, d: Db, saleId: Id)
    requires t.phase.Working? && (t.phase.goal.Refuses? || t.phase.goal.Loses?) && CommitsAs(g, t, d) &&
             saleId in g.sales
    ensures SameSale(g, d, saleId)
  {
  }

  /** A commit that adds a reservation to a sale finds the sale active at that moment. */
  lemma CommitKeepsClosedSale(g: Db, t: Txn, d: Db, saleId: Id)
    requires t.phase.Working? && CommitsAs(g, t, d) && Closed(g, saleId)
    ensures SameSale(g, d, saleId)
  {
    hide BatchOk, ExpireAll, Move, Pay, Open, CanOpen, CanMove, CanPay, SameSale;
    match t.phase.goal
    case Opens(w, _) => OpenNeedsActive(g, w, saleId);
    case Refuses(_, _) => RefusalKeepsSale(g, t, d, saleId);
    case Loses(_) => RefusalKeepsSale(g, t, d, saleId);
    case Moves(oid, _) => MoveKeepsSale(g, t.call.rid, oid, t.call.to, saleId);
    case Expires(batch) => ExpireKeepsSale(g, batch, saleId);
    case Pays(pid, _, _) => PayKeepsSale(g, t.call.payKey, pid, t.call.oid, t.call.outcome, saleId);
  }

  lemma OtherStepKeepsSale(s: State, e: Step, saleId: Id)
    requires Enabled(s, e) && saleId in s.db.sales && !e.Commit? && !(e.ChangeSale? && e.id == saleId)
    ensures SameSale(s.db, After(s, e).db, saleId)
  {
    if CatalogStep(e) || e.PurgeKeys? {
      CatalogKeepsSale(s, e, saleId);
    } else {
      hide Enabled, After;
      TablesStay(s, e);
    }
  }

  lemma CatalogKeepsSale(s: State, e: Step, saleId: Id)
    requires Enabled(s, e) && saleId in s.db.sales && (CatalogStep(e) || e.PurgeKeys?)
    requires !(e.ChangeSale? && e.id == saleId)
    ensures SameSale(s.db, After(s, e).db, saleId)
  {
    hide SameSale, Enabled, After;
    if e.CreateSale? || e.ChangeSale? {
      SaleStepKeepsRows(s, e, saleId);
    } else {
      OtherTablesStay(s, e);
    }
    SameRowsKeep(s.db, After(s, e).db, saleId);
  }

  lemma SaleStepKeepsRows(s: State, e: Step, saleId: Id)
    requires Enabled(s, e) && saleId in s.db.sales && (e.CreateSale? || (e.ChangeSale? && e.id != saleId))
    ensures var d := After(s, e).db;
            && saleId in d.sales && d.sales[saleId].state == s.db.sales[saleId].state
            && d.reservations == s.db.reservations
  {
    hide Unlocked;
  }

  lemma OtherTablesStay(s: State, e: Step)
    requires Enabled(s, e) && (e.CreateProduct? || e.UpdateProduct? || e.PurgeKeys?)
    ensures After(s, e).db.sales == s.db.sales && After(s, e).db.reservations == s.db.reservations
  {
    hide Unlocked, EditProduct, AddProduct, Purge;
    if e.UpdateProduct? {
      EditKeepsRows(s.db, e.id, e.product, e.newLevel);
    } else if e.CreateProduct? {
      AddKeepsRows(s.db, e.id, e.product, e.level);
    } else {
      PurgeKeepsRows(s.db, Overdue(s.db, e.now));
    }
  }

  lemma EditKeepsRows(g: Db, id: Id, p: Product, level: Option<int>)
    requires id in g.inventory
    ensures EditProduct(g, id, p, level).sales == g.sales && EditProduct(g, id, p, level).reservations == g.reservations
  {
  }

  lemma AddKeepsRows(g: Db, id: Id, p: Product, level: int)
    ensures AddProduct(g, id, p, level).sales == g.sales && AddProduct(g, id, p, level).reservations == g.reservations
  {
  }

  lemma PurgeKeepsRows(g: Db, keys: set<Id>)
    ensures Purge(g, keys).sales == g.sales && Purge(g, keys).reservations == g.reservations
  {
  }

  lemma SameRowsKeep(g: Db, d: Db, saleId: Id)
    requires saleId in g.sales && saleId in d.sales && d.sales[saleId].state == g.sales[saleId].state &&
             d.reservations == g.reservations
    ensures SameSale(g, d, saleId)
  {
  }

  lemma ClosedStep(s: State, e: Step, saleId: Id)
    requires Good(s) && Enabled(s, e) && Closed(s.db, saleId) && e != ChangeSale(saleId, Active)
    ensures Closed(After(s, e).db, saleId)
    ensures ReservationsOf(After(s, e).db, saleId) == ReservationsOf(s.db, saleId)
  {
    hide Good, Enabled, After, ReservationsOf;
    if e.Commit? {
      ClosedCommit(s, e.tid, saleId);
    } else if e.ChangeSale? && e.id == saleId {
      ClosedAgain(s, saleId, e.state);
    } else {
      OtherStepKeepsSale(s, e, saleId);
      SameSaleKeeps(s.db, After(s, e).db, saleId);
    }
  }

  lemma ClosedAgain(s: State, saleId: Id, state: SaleState)
    requires Enabled(s, ChangeSale(saleId, state)) && state != Active
    ensures Closed(After(s, ChangeSale(saleId, state)).db, saleId)
    ensures ReservationsOf(After(s, ChangeSale(saleId, state)).db, saleId) == ReservationsOf(s.db, saleId)
  {
  }

  lemma ClosedCommit(s: State, tid: nat, saleId: Id)
    requires Good(s) && Enabled(s, Commit(tid)) && Closed(s.db, saleId)
    ensures Closed(After(s, Commit(tid)).db, saleId)
    ensures ReservationsOf(After(s, Commit(tid)).db, saleId) == ReservationsOf(s.db, saleId)
  {
    hide Inv, TxnOk, Apart, CommitsAs, Publish;
    var t := s.txns[tid];
    CommitRefines(s.db, t);
    CommitKeepsClosedSale(s.db, t, View(s.db, t), saleId);
    SameSaleKeeps(s.db, View(s.db, t), saleId);
  }

  /** No reservation after closing: from a state in which the sale is closed, however many Reserve
      transactions are already under way, the sale gains no reservation until it is activated again. */
  lemma {:induction false} ClosedSaleGainsNothing(run: seq<State>, steps: seq<Step>, db: Db, i: nat, j: nat, saleId: Id)
    requires Reached(run, steps, db, i) && i <= j < |run| && Closed(run[i].db, saleId)
    requires forall k :: i <= k < j ==> steps[k] != ChangeSale(saleId, Active)
    ensures Closed(run[j].db, saleId) && ReservationsOf(run[j].db, saleId) == ReservationsOf(run[i].db, saleId)
    decreases j - i
  {
    hide Inv, Good, Enabled, After, Closed, ReservationsOf;
    if i < j {
      ClosedSaleGainsNothing(run, steps, db, i, j - 1, saleId);
      RunsKeepGood(run, steps, db);
      ClosedStep(run[j - 1], steps[j - 1], saleId);
    }
  }
}
