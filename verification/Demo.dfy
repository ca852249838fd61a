/** Runs that start from ResetDemo: the sale and the stock stay level and nothing is ever lost. */
module Demo {
  import opened Domain
  import opened Tables
  import opened Journal
  import opened Ledger
  import opened LedgerProofs
  import opened Statements
  import opened Scripts
  import opened Locking
  import opened Machine
  import opened MachineProofs

  // ---------------------------------------------------------------- ResetDemo

  const MINUTE: int := 60
  const YEAR: int := 365 * 24 * 3600
  const PRICE: int := 9900

  function DemoSale(pid: Id, units: int, now: int): Sale {
    Sale(pid, now - MINUTE, now + YEAR, units, units, 1, Active)
  }

  /** The tables ResetDemo leaves. */
  function DemoTables(pid: Id, sid: Id, units: int, now: int): Db {
    EMPTY.(products := map[pid := Product("FLASH-100", PRICE, "THB", true)],
           inventory := map[pid := Stock(units, 0, 0, units)],
           sales := map[sid := DemoSale(pid, units, now)],
           journal := [StockSet(pid, units)])
  }

  lemma DemoTablesHaveInv(pid: Id, sid: Id, units: int, now: int)
    requires 1 <= units <= INT4_MAX
    ensures Inv(DemoTables(pid, sid, units, now))
    ensures Lost(DemoTables(pid, sid, units, now).journal, sid) == 0
  {
    hide Inv, AddProduct;
    EmptyHasInv();
    var p := Product("FLASH-100", PRICE, "THB", true);
    var d := AddProduct(EMPTY, pid, p, units);
    AddProductKeepsInv(EMPTY, pid, p, units);
    DemoIsBuilt(pid, sid, units, now);
    AddSaleKeepsInv(d, sid, DemoSale(pid, units, now));
  }

  lemma DemoIsBuilt(pid: Id, sid: Id, units: int, now: int)
    requires 1 <= units <= INT4_MAX
    ensures var d := AddProduct(EMPTY, pid, Product("FLASH-100", PRICE, "THB", true), units);
            && CanAddSale(d, sid, DemoSale(pid, units, now))
            && AddSale(d, sid, DemoSale(pid, units, now)) == DemoTables(pid, sid, units, now)
    ensures Lost(DemoTables(pid, sid, units, now).journal, sid) == 0
  {
    assert EMPTY.journal + [StockSet(pid, units)] == [StockSet(pid, units)];
    LostNext([], StockSet(pid, units), sid);
  }

  // ---------------------------------------------------------------- the sale and the stock stay level

  /** One product and one sale, the remaining allocation equal to the available stock, nothing lost. */
  ghost predicate Level(db: Db, pid: Id, sid: Id) {
    && db.inventory.Keys == {pid} && db.sales.Keys == {sid}
    && db.sales[sid].productId == pid
    && db.sales[sid].remaining == db.inventory[pid].available
    && db.sales[sid].allocation == db.inventory[pid].expectedTotal
    && Lost(db.journal, sid) == 0
  }

  /** The operations of a demo run: everything but further catalog changes. */
  predicate DemoStep(e: Step) {
    !e.CreateProduct? && !e.UpdateProduct? && !e.CreateSale?
  }

  predicate NoLoss(t: Txn) {
    !(t.phase.Working? && t.phase.goal.Loses?)
  }

  ghost predicate DemoOk(s: State, pid: Id, sid: Id) {
    Good(s) && Level(s.db, pid, sid) && forall i :: i in s.txns ==> NoLoss(s.txns[i])
  }

  /** The committed sale still has the units this transaction took from its own version. */
  lemma SpentUnitsWereThere(g: Db, t: Txn)
    requires TxnOk(g, t) && t.phase.Working? && t.phase.goal.Opens? && t.plan != [] && t.plan[0].OnStock?
    ensures var w := t.phase.goal.w;
            && t.plan[0] == OnStock(w.productId, Take(w.quantity))
            && w.saleId in g.sales && g.sales[w.saleId].productId == w.productId
            && g.sales[w.saleId].remaining >= w.quantity && View(g, t).inventory == g.inventory
  {
    hide Serial, Covered, RunAll, Publish, Then;
    var w := t.phase.goal.w;
    var ss := OpenScript(w);
    assert t.plan[0] == ss[|t.done|];
    assert t.done == ss[..2] == [ss[0], ss[1]];
    CommitIsSerial(g, t.locks, t.done, t.own);
    SpendRuns(g, ClaimOf(w), w);
  }

  lemma SpendRuns(g: Db, row: KeyRow, w: Opening)
    requires RunAll(g, [OnKey(w.key, InsertKey(row)), OnSale(w.saleId, Spend(w.quantity))]).Some?
    ensures w.saleId in g.sales && g.sales[w.saleId].remaining >= w.quantity
    ensures RunAll(g, [OnKey(w.key, InsertKey(row)), OnSale(w.saleId, Spend(w.quantity))]).value.inventory
            == g.inventory
  {
    hide RunAll, Then;
    var spend := OnSale(w.saleId, Spend(w.quantity));
    Run2(g, OnKey(w.key, InsertKey(row)), spend);
    ThenInsertKey(g, w.key, row);
    ThenMissed(spend);
    ThenSale(g.(keys := g.keys[w.key := row]), w.saleId, Spend(w.quantity));
  }

  /** So the second sold-out branch is unreachable. */
  lemma StockNeverMisses(s: State, pid: Id, sid: Id, t: Txn)
    requires Level(s.db, pid, sid) && TxnOk(s.db, t)
    requires t.phase.Working? && t.phase.goal.Opens? && t.plan != [] && t.plan[0].OnStock?
    ensures Hits(View(s.db, t), t.plan[0])
  {
    hide TxnOk, Publish;
    SpentUnitsWereThere(s.db, t);
    assert t.phase.goal.w.saleId in s.db.sales.Keys;
  }

  lemma LevelMove(g: Db, rid: Id, oid: Id, to: ReservationState, pid: Id, sid: Id)
    requires Level(g, pid, sid) && CanMove(g, rid, oid, to)
    ensures Level(Move(g, rid, oid, to), pid, sid)
  {
    hide Lost;
    var r := g.reservations[rid];
    assert r.productId in g.inventory.Keys && r.saleId in g.sales.Keys;
    LostNext(g.journal, Moved(rid, r.state, to), sid);
  }

  lemma {:induction false} LevelExpire(g: Db, batch: seq<Due>, pid: Id, sid: Id)
    requires Level(g, pid, sid)
    ensures Level(ExpireAll(g, batch), pid, sid)
  {
    hide Level, Move, CanMove;
    if batch != [] {
      var last := batch[|batch| - 1];
      var before := ExpireAll(g, batch[..|batch| - 1]);
      LevelExpire(g, batch[..|batch| - 1], pid, sid);
      if CanMove(before, last.rid, last.oid, Expired) {
        LevelMove(before, last.rid, last.oid, Expired, pid, sid);
      }
    }
  }

  lemma LevelOpen(g: Db, w: Opening, pid: Id, sid: Id)
    requires Level(g, pid, sid) && CanOpen(g, w)
    ensures Level(Open(g, w), pid, sid)
  {
    hide Lost, AcceptedRow;
    assert w.productId in g.inventory.Keys && w.saleId in g.sales.Keys;
    LostNext(g.journal, Opened(w.rid, w.productId, w.quantity), sid);
  }

  lemma LevelPay(g: Db, key: Id, pay: Id, oid: Id, outcome: Outcome, pid: Id, sid: Id)
    requires Level(g, pid, sid) && CanPay(g, key, oid, outcome)
    requires outcome == Successful ==> CanMove(g, g.orders[oid].reservationId, oid, Paid)
    ensures Level(Pay(g, key, pay, oid, outcome), pid, sid)
  {
    hide Lost, PaymentRow;
    var e := PaymentNoted(pay, StatusOf(outcome));
    if outcome == Successful {
      LevelMove(g, g.orders[oid].reservationId, oid, Paid, pid, sid);
      LostNext(Move(g, g.orders[oid].reservationId, oid, Paid).journal, e, sid);
    } else {
      LostNext(g.journal, e, sid);
    }
  }

  lemma LevelCommit(g: Db, t: Txn, d: Db, pid: Id, sid: Id)
    requires Level(g, pid, sid) && t.phase.Working? && NoLoss(t) && CommitsAs(g, t, d)
    ensures Level(d, pid, sid)
  {
    hide BatchOk, ExpireAll, Move, Pay, Open, CanOpen, CanMove, CanPay;
    match t.phase.goal
    case Opens(w, _) => LevelOpen(g, w, pid, sid);
    case Refuses(_, _) =>
    case Moves(oid, _) => LevelMove(g, t.call.rid, oid, t.call.to, pid, sid);
    case Expires(batch) => LevelExpire(g, batch, pid, sid);
    case Pays(pay, _, _) => LevelPay(g, t.call.payKey, pay, t.call.oid, t.call.outcome, pid, sid);
  }

  lemma LevelStep(s: State, e: Step, pid: Id, sid: Id)
    requires DemoOk(s, pid, sid) && Enabled(s, e) && DemoStep(e)
    ensures Level(After(s, e).db, pid, sid)
  {
    if e.Commit? {
      LevelAfterCommit(s, e.tid, pid, sid);
    } else {
      LevelOther(s, e, pid, sid);
    }
  }

  lemma LevelAfterCommit(s: State, tid: nat, pid: Id, sid: Id)
    requires DemoOk(s, pid, sid) && Enabled(s, Commit(tid))
    ensures Level(After(s, Commit(tid)).db, pid, sid)
  {
    hide Inv, TxnOk, Apart, CommitsAs, Publish, Level;
    var t := s.txns[tid];
    CommitRefines(s.db, t);
    LevelCommit(s.db, t, View(s.db, t), pid, sid);
  }

  lemma LevelOther(s: State, e: Step, pid: Id, sid: Id)
    requires Level(s.db, pid, sid) && Enabled(s, e) && DemoStep(e) && !e.Commit?
    ensures Level(After(s, e).db, pid, sid)
  {
    if e.ChangeSale? || e.PurgeKeys? {
      LevelCatalog(s, e, pid, sid);
    } else {
      hide Enabled, After, Level;
      TablesStay(s, e);
    }
  }

  lemma LevelCatalog(s: State, e: Step, pid: Id, sid: Id)
    requires Level(s.db, pid, sid) && Enabled(s, e) && (e.ChangeSale? || e.PurgeKeys?)
    ensures Level(After(s, e).db, pid, sid)
  {
  }

  lemma NoLossStep(s: State, e: Step, pid: Id, sid: Id)
    requires DemoOk(s, pid, sid) && Enabled(s, e)
    ensures forall i :: i in After(s, e).txns ==> NoLoss(After(s, e).txns[i])
  {
    if e.Execute? {
      NoLossExecute(s, e.tid, pid, sid);
    } else {
      NoLossOther(s, e);
    }
  }

  lemma NoLossExecute(s: State, tid: nat, pid: Id, sid: Id)
    requires DemoOk(s, pid, sid) && Enabled(s, Execute(tid))
    ensures forall i :: i in After(s, Execute(tid)).txns ==> NoLoss(After(s, Execute(tid)).txns[i])
  {
    hide Inv, TxnOk, Apart, Publish, Level, Hits, Absorb, LocksOf;
    var t := s.txns[tid];
    if t.phase.goal.Opens? && t.plan[0].OnStock? {
      StockNeverMisses(s, pid, sid, t);
    }
  }

  lemma NoLossOther(s: State, e: Step)
    requires Enabled(s, e) && !e.Execute? && forall i :: i in s.txns ==> NoLoss(s.txns[i])
    ensures forall i :: i in After(s, e).txns ==> NoLoss(After(s, e).txns[i])
  {
  }

  lemma {:induction false} DemoRunsStayLevel(run: seq<State>, steps: seq<Step>, pid: Id, sid: Id, units: int, now: int)
    requires IsRun(run, steps) && Starts(run[0], DemoTables(pid, sid, units, now)) && 1 <= units <= INT4_MAX
    requires forall i :: 0 <= i < |steps| ==> DemoStep(steps[i])
    ensures forall i :: 0 <= i < |run| ==> DemoOk(run[i], pid, sid)
    decreases |steps|
  {
    hide Inv, Good, Enabled, After, Level;
    DemoTablesHaveInv(pid, sid, units, now);
    if steps == [] {
      DemoStartsLevel(pid, sid, units, now);
      StartIsGood(run[0], DemoTables(pid, sid, units, now));
    } else {
      var n := |steps| - 1;
      assert IsRun(run[..n + 1], steps[..n]);
      DemoRunsStayLevel(run[..n + 1], steps[..n], pid, sid, units, now);
      StepKeepsGood(run[n], steps[n]);
      LevelStep(run[n], steps[n], pid, sid);
      NoLossStep(run[n], steps[n], pid, sid);
    }
  }

  lemma DemoStartsLevel(pid: Id, sid: Id, units: int, now: int)
    requires 1 <= units <= INT4_MAX
    ensures Level(DemoTables(pid, sid, units, now), pid, sid)
  {
    DemoIsBuilt(pid, sid, units, now);
  }

  // ---------------------------------------------------------------- DemoStatus

  /** SELECT count(*) FROM (... GROUP BY reservation_id HAVING count(*) > 1). */
  ghost function DuplicateOrders(orders: map<Id, Order>): set<Id> {
    set o, p | o in orders && p in orders && o != p && orders[o].reservationId == orders[p].reservationId
      :: orders[o].reservationId
  }

  /** DemoStatus.InvariantPass on one snapshot. */
  ghost predicate InvariantPass(db: Db, pid: Id, sid: Id)
    requires pid in db.inventory && sid in db.sales
  {
    var t, s := db.inventory[pid], db.sales[sid];
    && t.available >= 0 && t.reserved >= 0 && t.sold >= 0 && s.remaining >= 0
    && |db.reservations| == |db.orders| && |DuplicateOrders(db.orders)| == 0
    && t.available + t.reserved + t.sold == s.allocation
    && s.remaining + t.reserved + t.sold == s.allocation
  }

  function ReservationIds(orders: map<Id, Order>): set<Id> {
    set o | o in orders :: orders[o].reservationId
  }

  ghost predicate Distinct(orders: map<Id, Order>) {
    forall o, p, rid :: OrderFor(orders, o, rid) && OrderFor(orders, p, rid) ==> o == p
  }

  lemma ReservationIdsSplit(orders: map<Id, Order>, o: Id)
    requires o in orders && Distinct(orders)
    ensures ReservationIds(orders) == ReservationIds(orders - {o}) + {orders[o].reservationId}
    ensures orders[o].reservationId !in ReservationIds(orders - {o}) && Distinct(orders - {o})
  {
    var rest := orders - {o};
    forall p | p in rest ensures rest[p].reservationId != orders[o].reservationId {
      assert OrderFor(orders, o, orders[o].reservationId);
      assert rest[p].reservationId == orders[o].reservationId ==> OrderFor(orders, p, orders[o].reservationId);
    }
    assert forall p :: p in orders <==> p == o || p in rest;
    assert forall p :: p in rest ==> orders[p] == rest[p];
    forall p, q, rid | OrderFor(rest, p, rid) && OrderFor(rest, q, rid) ensures p == q {
      assert OrderFor(orders, p, rid) && OrderFor(orders, q, rid);
    }
  }

  lemma {:induction false} DistinctOrdersCount(orders: map<Id, Order>)
    requires Distinct(orders)
    ensures |ReservationIds(orders)| == |orders|
    decreases orders.Keys
  {
    if orders == map[] {
      assert ReservationIds(orders) == {};
    } else {
      hide Distinct, ReservationIds;
      var o :| o in orders;
      ReservationIdsSplit(orders, o);
      DistinctOrdersCount(orders - {o});
      assert orders.Keys == (orders - {o}).Keys + {o};
    }
  }

  lemma OrdersCountReservations(db: Db)
    requires OrdersOk(db.orders, db.reservations)
    ensures |db.orders| == |db.reservations| && DuplicateOrders(db.orders) == {}
  {
    NoDuplicates(db.orders);
    DistinctOrdersCount(db.orders);
    EveryReservationHasOrder(db.orders, db.reservations);
  }

  lemma NoDuplicates(orders: map<Id, Order>)
    requires Distinct(orders)
    ensures DuplicateOrders(orders) == {}
  {
    forall o, p | o in orders && p in orders && orders[o].reservationId == orders[p].reservationId ensures o == p {
      assert OrderFor(orders, o, orders[o].reservationId) && OrderFor(orders, p, orders[o].reservationId);
    }
  }

  lemma EveryReservationHasOrder(orders: map<Id, Order>, reservations: map<Id, Reservation>)
    requires OrdersOk(orders, reservations)
    ensures ReservationIds(orders) == reservations.Keys
  {
    forall r | r in reservations ensures r in ReservationIds(orders) {
      var o :| OrderFor(orders, o, r);
    }
    forall o | o in orders ensures orders[o].reservationId in reservations {
      assert OrderRefers(orders[o], reservations);
    }
  }

  /** A reservation with two orders is found. */
  lemma DuplicatesAreFound(orders: map<Id, Order>)
    ensures DuplicateOrders(orders) != {} <==>
            exists o, p :: o in orders && p in orders && o != p && orders[o].reservationId == orders[p].reservationId
  {
    if o, p :| o in orders && p in orders && o != p && orders[o].reservationId == orders[p].reservationId {
      assert orders[o].reservationId in DuplicateOrders(orders);
    }
  }

  /** What InvariantPass tells of tables that satisfy the invariant: that the sale still has the whole
      stock as its allocation, and what remains of it is what is available. */
  lemma PassesExactlyWhen(db: Db, pid: Id, sid: Id)
    requires Inv(db) && pid in db.inventory && sid in db.sales
    ensures InvariantPass(db, pid, sid) <==>
            db.inventory[pid].expectedTotal == db.sales[sid].allocation &&
            db.sales[sid].remaining == db.inventory[pid].available
  {
    hide RefsOk, LimitOk, OrdersOk, KeysOk, PaymentsOk, JournalOk, DuplicateOrders;
    OrdersCountReservations(db);
    assert StockOk(pid, db.inventory[pid], db.reservations);
    assert SaleOk(sid, db.sales[sid], db.reservations, db.journal);
  }

  /** On any tables: no counter is negative, orders and reservations match in number and one to one, and
      both sums are the allocation. */
  lemma PassMeans(db: Db, pid: Id, sid: Id)
    requires pid in db.inventory && sid in db.sales
    ensures var (t, s) := (db.inventory[pid], db.sales[sid]);
            InvariantPass(db, pid, sid) <==>
            && !(t.available < 0 || t.reserved < 0 || t.sold < 0 || s.remaining < 0)
            && |db.orders| == |db.reservations|
            && !(exists o, p :: o in db.orders && p in db.orders && o != p
                                && db.orders[o].reservationId == db.orders[p].reservationId)
            && t.reserved + t.sold == s.allocation - t.available == s.allocation - s.remaining
  {
    DuplicatesAreFound(db.orders);
    if |DuplicateOrders(db.orders)| == 0 {
      assert DuplicateOrders(db.orders) == {};
    }
  }

  /** In a demo, InvariantPass turns false with a restock that changes the level. */
  lemma RestockBreaksPass(db: Db, pid: Id, sid: Id, p: Product, n: int)
    requires Inv(db) && Level(db, pid, sid) && pid in db.inventory && sid in db.sales && CanEdit(db, pid, Some(n))
    ensures InvariantPass(EditProduct(db, pid, p, Some(n)), pid, sid) <==> n == db.inventory[pid].available
  {
    hide Inv, InvariantPass;
    EditProductKeepsInv(db, pid, p, Some(n));
    PassesExactlyWhen(EditProduct(db, pid, p, Some(n)), pid, sid);
    TotalOfStock(db, pid);
  }

  lemma TotalOfStock(db: Db, pid: Id)
    requires Inv(db) && pid in db.inventory
    ensures var t := db.inventory[pid]; t.available + t.reserved + t.sold == t.expectedTotal
  {
    hide RefsOk, SalesOk, LimitOk, OrdersOk, KeysOk, PaymentsOk, JournalOk;
    assert StockOk(pid, db.inventory[pid], db.reservations);
  }

  /** Demo runs are exact: after ResetDemo, every interleaving of reservations, confirmations,
      cancellations, expiries, payments, purges and sale state changes keeps the remaining allocation
      equal to the available stock, loses no unit, and InvariantPass is true. */
  lemma DemoRunsAreExact(run: seq<State>, steps: seq<Step>, pid: Id, sid: Id, units: int, now: int, i: nat)
    requires IsRun(run, steps) && Starts(run[0], DemoTables(pid, sid, units, now)) && 1 <= units <= INT4_MAX
    requires forall j :: 0 <= j < |steps| ==> DemoStep(steps[j])
    requires i < |run|
    ensures pid in run[i].db.inventory && sid in run[i].db.sales
    ensures run[i].db.sales[sid].remaining == run[i].db.inventory[pid].available
    ensures Lost(run[i].db.journal, sid) == 0
    ensures InvariantPass(run[i].db, pid, sid)
  {
    DemoRunsStayLevel(run, steps, pid, sid, units, now);
    LevelPasses(run[i], pid, sid);
  }

  lemma LevelPasses(s: State, pid: Id, sid: Id)
    requires DemoOk(s, pid, sid)
    ensures pid in s.db.inventory && sid in s.db.sales && InvariantPass(s.db, pid, sid)
    ensures s.db.sales[sid].remaining == s.db.inventory[pid].available && Lost(s.db.journal, sid) == 0
  {
    hide TxnOk, Apart, RefsOk, LimitOk, OrdersOk, KeysOk, PaymentsOk, JournalOk, DuplicateOrders;
    OrdersCountReservations(s.db);
    assert pid in s.db.inventory.Keys && sid in s.db.sales.Keys;
    assert StockOk(pid, s.db.inventory[pid], s.db.reservations);
    assert SaleOk(sid, s.db.sales[sid], s.db.reservations, s.db.journal);
  }
}
