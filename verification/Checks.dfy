/** CheckInvariants: the seven queries, and that they find nothing in a state satisfying the invariant. */
module Checks {
  import opened Domain
  import opened Tables
  import opened Ledger
  import opened Machine
  import opened MachineProofs
  import opened Safety

  datatype Check =
    | ACTIVE_RESERVATION_LIMIT
    | INVENTORY_RECONCILIATION
    | NEGATIVE_INVENTORY
    | NEGATIVE_SALE_STOCK
    | ORDER_RESERVATION_STATE_MISMATCH
    | ORDER_WITHOUT_RESERVATION
    | PAID_EXPIRED_RESERVATION

  /** ORDER BY code. */
  const CHECKS: seq<Check> :=
    [ACTIVE_RESERVATION_LIMIT, INVENTORY_RECONCILIATION, NEGATIVE_INVENTORY, NEGATIVE_SALE_STOCK,
     ORDER_RESERVATION_STATE_MISMATCH, ORDER_WITHOUT_RESERVATION, PAID_EXPIRED_RESERVATION]

  datatype Violation = Violation(code: Check, count: nat)

  // ---------------------------------------------------------------- the rows each query counts

  function Unreconciled(db: Db): set<Id> {
    set p | p in db.inventory &&
            db.inventory[p].available + db.inventory[p].reserved + db.inventory[p].sold != db.inventory[p].expectedTotal
  }

  function NegativeStock(db: Db): set<Id> {
    set p | p in db.inventory &&
      (db.inventory[p].available < 0 || db.inventory[p].reserved < 0 || db.inventory[p].sold < 0)
  }

  function NegativeSales(db: Db): set<Id> {
    set s | s in db.sales && db.sales[s].remaining < 0
  }

  /** GROUP BY sale and user over the active reservations of existing sales. */
  function Groups(db: Db): set<(Id, Id)> {
    set r | r in db.reservations && Live(db.reservations[r].state) && db.reservations[r].saleId in db.sales
      :: (db.reservations[r].saleId, db.reservations[r].userId)
  }

  ghost predicate OverLimit(db: Db, g: (Id, Id)) {
    g.0 in db.sales && Total(ActiveBy(g.0, g.1), db.reservations) > db.sales[g.0].maxPerUser
  }

  ghost function Excessive(db: Db): set<(Id, Id)> {
    set g | g in Groups(db) && OverLimit(db, g)
  }

  function Orphans(db: Db): set<Id> {
    set o | o in db.orders && db.orders[o].reservationId !in db.reservations
  }

  function Mismatched(db: Db): set<Id> {
    set o | o in db.orders && db.orders[o].reservationId in db.reservations
            && var s := db.reservations[db.orders[o].reservationId].state;
               (s == Paid || s == Cancelled || s == Expired) && db.orders[o].state != Follows(s)
  }

  function PaidExpired(db: Db): set<Id> {
    set k | k in db.payments && db.payments[k].status == Succeeded && db.payments[k].orderId in db.orders
            && db.orders[db.payments[k].orderId].reservationId in db.reservations
            && db.reservations[db.orders[db.payments[k].orderId].reservationId].state == Expired
  }

  ghost function Count(db: Db, c: Check): nat {
    match c
    case ACTIVE_RESERVATION_LIMIT => |Excessive(db)|
    case INVENTORY_RECONCILIATION => |Unreconciled(db)|
    case NEGATIVE_INVENTORY => |NegativeStock(db)|
    case NEGATIVE_SALE_STOCK => |NegativeSales(db)|
    case ORDER_RESERVATION_STATE_MISMATCH => |Mismatched(db)|
    case ORDER_WITHOUT_RESERVATION => |Orphans(db)|
    case PAID_EXPIRED_RESERVATION => |PaidExpired(db)|
  }

  /** The rows of the first n checks with a positive count. */
  ghost function Report(db: Db, n: nat): seq<Violation>
    requires n <= |CHECKS|
  {
    if n == 0 then []
    else
      var c := CHECKS[n - 1];
      Report(db, n - 1) + (if Count(db, c) > 0 then [Violation(c, Count(db, c))] else [])
  }

  ghost function Violations(db: Db): seq<Violation> {
    Report(db, |CHECKS|)
  }

  lemma {:induction false} CleanReport(db: Db, n: nat)
    requires n <= |CHECKS|
    ensures Report(db, n) == [] <==> forall i :: 0 <= i < n ==> Count(db, CHECKS[i]) == 0
  {
    if n > 0 {
      CleanReport(db, n - 1);
    }
  }

  /** The report is empty exactly when every check counts nothing. */
  lemma CleanExactlyWhen(db: Db)
    ensures Violations(db) == [] <==> forall c: Check :: Count(db, c) == 0
  {
    CleanReport(db, |CHECKS|);
    assert CHECKS[0] == ACTIVE_RESERVATION_LIMIT && CHECKS[1] == INVENTORY_RECONCILIATION &&
           CHECKS[2] == NEGATIVE_INVENTORY;
    assert CHECKS[3] == NEGATIVE_SALE_STOCK && CHECKS[4] == ORDER_RESERVATION_STATE_MISMATCH;
    assert CHECKS[5] == ORDER_WITHOUT_RESERVATION && CHECKS[6] == PAID_EXPIRED_RESERVATION;
  }

  // ---------------------------------------------------------------- every bad row is found

  lemma {:induction false} ReportHolds(db: Db, n: nat, v: Violation)
    requires n <= |CHECKS|
    ensures v in Report(db, n) <==> exists i :: 0 <= i < n && CHECKS[i] == v.code && Count(db, v.code) == v.count > 0
  {
    hide Count;
    if n > 0 {
      ReportHolds(db, n - 1, v);
    }
  }

  lemma EveryCheckListed(c: Check)
    ensures exists i :: 0 <= i < |CHECKS| && CHECKS[i] == c
  {
    assert CHECKS[0] == ACTIVE_RESERVATION_LIMIT && CHECKS[1] == INVENTORY_RECONCILIATION;
    assert CHECKS[2] == NEGATIVE_INVENTORY && CHECKS[3] == NEGATIVE_SALE_STOCK;
    assert CHECKS[4] == ORDER_RESERVATION_STATE_MISMATCH && CHECKS[5] == ORDER_WITHOUT_RESERVATION;
    assert CHECKS[6] == PAID_EXPIRED_RESERVATION;
  }

  /** A violation is reported exactly when its query counts that many rows, and at least one. */
  lemma ReportedExactlyWhen(db: Db, v: Violation)
    ensures v in Violations(db) <==> Count(db, v.code) == v.count > 0
  {
    ReportHolds(db, |CHECKS|, v);
    EveryCheckListed(v.code);
  }

  lemma SomeRow<T>(s: set<T>)
    ensures |s| > 0 <==> exists x :: x in s
  {
    if |s| > 0 {
      var x :| x in s;
    }
  }

  /** An inventory row is counted whenever its columns are wrong. */
  lemma BadStockIsCounted(db: Db)
    ensures Count(db, INVENTORY_RECONCILIATION) > 0 <==>
            exists p :: p in db.inventory && db.inventory[p].available + db.inventory[p].reserved + db.inventory[p].sold
                                             != db.inventory[p].expectedTotal
    ensures Count(db, NEGATIVE_INVENTORY) > 0 <==>
            exists p :: p in db.inventory &&
                        !(db.inventory[p].available >= 0 && db.inventory[p].reserved >= 0 && db.inventory[p].sold >= 0)
    ensures Count(db, NEGATIVE_SALE_STOCK) > 0 <==> exists s :: s in db.sales && !(db.sales[s].remaining >= 0)
  {
    SomeRow(Unreconciled(db));
    if p :| p in db.inventory && db.inventory[p].available + db.inventory[p].reserved + db.inventory[p].sold
                                 != db.inventory[p].expectedTotal {
      assert p in Unreconciled(db);
    }
    SomeRow(NegativeStock(db));
    if p :| p in db.inventory &&
            !(db.inventory[p].available >= 0 && db.inventory[p].reserved >= 0 && db.inventory[p].sold >= 0) {
      assert p in NegativeStock(db);
    }
    SomeRow(NegativeSales(db));
    if s :| s in db.sales && !(db.sales[s].remaining >= 0) {
      assert s in NegativeSales(db);
    }
  }

  /** A user is counted whenever the units not given back exceed the sale's limit. */
  lemma OverLimitIsCounted(db: Db)
    ensures Count(db, ACTIVE_RESERVATION_LIMIT) > 0 <==>
            exists s, u :: s in db.sales && Unreleased(db.reservations, s, u) != {} &&
                           Sum(Unreleased(db.reservations, s, u), db.reservations) > db.sales[s].maxPerUser
  {
    SomeRow(Excessive(db));
    if g :| g in Excessive(db) {
      ActiveIsUnreleased(db.reservations, g.0, g.1);
      GroupHasRow(db, g);
    }
    if s, u :| s in db.sales && Unreleased(db.reservations, s, u) != {} &&
               Sum(Unreleased(db.reservations, s, u), db.reservations) > db.sales[s].maxPerUser {
      ActiveIsUnreleased(db.reservations, s, u);
      var r :| r in Unreleased(db.reservations, s, u);
      assert Live(db.reservations[r].state);
      assert (db.reservations[r].saleId, db.reservations[r].userId) in Groups(db);
      assert (s, u) in Excessive(db);
    }
  }

  lemma GroupHasRow(db: Db, g: (Id, Id))
    requires g in Groups(db)
    ensures g.0 in db.sales && Unreleased(db.reservations, g.0, g.1) != {}
  {
    var r :| r in db.reservations && Live(db.reservations[r].state) && db.reservations[r].saleId in db.sales
             && g == (db.reservations[r].saleId, db.reservations[r].userId);
    assert r in Unreleased(db.reservations, g.0, g.1);
  }

  /** An order or payment is counted whenever it disagrees with its reservation. */
  lemma BadOrderIsCounted(db: Db)
    ensures Count(db, ORDER_WITHOUT_RESERVATION) > 0 <==>
            exists o :: o in db.orders && db.orders[o].reservationId !in db.reservations
    ensures Count(db, ORDER_RESERVATION_STATE_MISMATCH) > 0 <==>
            exists o :: o in db.orders && db.orders[o].reservationId in db.reservations &&
                        var state := db.reservations[db.orders[o].reservationId].state;
                        state != Pending && state != Confirmed && db.orders[o].state != Follows(state)
    ensures Count(db, PAID_EXPIRED_RESERVATION) > 0 <==>
            exists k :: k in db.payments && db.payments[k].status == Succeeded && db.payments[k].orderId in db.orders &&
                        var rid := db.orders[db.payments[k].orderId].reservationId;
                        rid in db.reservations && db.reservations[rid].state == Expired
  {
    SomeRow(Orphans(db));
    if o :| o in db.orders && db.orders[o].reservationId !in db.reservations {
      assert o in Orphans(db);
    }
    SomeRow(Mismatched(db));
    if o :| o in db.orders && db.orders[o].reservationId in db.reservations &&
            var state := db.reservations[db.orders[o].reservationId].state;
            state != Pending && state != Confirmed && db.orders[o].state != Follows(state) {
      assert o in Mismatched(db);
    }
    SomeRow(PaidExpired(db));
    if k :| k in db.payments && db.payments[k].status == Succeeded && db.payments[k].orderId in db.orders &&
            var rid := db.orders[db.payments[k].orderId].reservationId;
            rid in db.reservations && db.reservations[rid].state == Expired {
      assert k in PaidExpired(db);
    }
  }

  // ---------------------------------------------------------------- nothing is found

  lemma StockChecks(db: Db)
    requires LedgerOk(db.inventory, db.reservations) && SalesOk(db.sales, db.reservations, db.journal)
    ensures Unreconciled(db) == {} && NegativeStock(db) == {} && NegativeSales(db) == {}
  {
    forall p | p in db.inventory ensures StockOk(p, db.inventory[p], db.reservations) {
    }
    forall s | s in db.sales ensures SaleOk(s, db.sales[s], db.reservations, db.journal) {
    }
  }

  lemma LimitCheck(db: Db)
    requires LimitOk(db.sales, db.reservations)
    ensures Excessive(db) == {}
  {
  }

  lemma OrderChecks(db: Db)
    requires OrdersOk(db.orders, db.reservations) && PaymentsOk(db.payments, db.orders, db.reservations)
    ensures Orphans(db) == {} && Mismatched(db) == {} && PaidExpired(db) == {}
  {
    forall o | o in db.orders ensures OrderRefers(db.orders[o], db.reservations) {
    }
    forall k | k in db.payments && db.payments[k].status == Succeeded
      ensures IsPaid(db.orders, db.reservations, db.payments[k].orderId)
    {
      assert PaidFor(db.payments, k, db.payments[k].orderId);
    }
  }

  lemma InvIsClean(db: Db)
    requires Inv(db)
    ensures Violations(db) == []
  {
    hide RefsOk, LedgerOk, SalesOk, LimitOk, OrdersOk, KeysOk, PaymentsOk, JournalOk, Violations;
    hide Excessive, Unreconciled, NegativeStock, NegativeSales, Mismatched, Orphans, PaidExpired;
    StockChecks(db);
    LimitCheck(db);
    OrderChecks(db);
    CleanExactlyWhen(db);
  }

  /** All seven checks are inductive: CheckInvariants is empty in every state of every interleaved run. */
  lemma ChecksStayClean(run: seq<State>, steps: seq<Step>, db: Db, i: nat)
    requires Reached(run, steps, db, i)
    ensures Violations(run[i].db) == []
  {
    hide IsRun, Inv, TxnOk, Apart, Violations;
    ReachedIsGood(run, steps, db, i);
    InvIsClean(run[i].db);
  }
}
