/** Every committed effect keeps the invariant. The first half is about writing one reservation row,
    table by table; the second half puts the tables together, effect by effect. */
module LedgerProofs {
  import opened Domain
  import opened Tables
  import opened Journal
  import opened Ledger

  // ---------------------------------------------------------------- one reservation row is written

  function OldWeight(f: Filter, m: map<Id, Reservation>, k: Id): int {
    if k in m then Weight(f, m[k]) else 0
  }

  lemma StockPut(inventory: map<Id, Stock>, m: map<Id, Reservation>, k: Id, r: Reservation, t: Stock)
    requires LedgerOk(inventory, m) && r.productId in inventory
    requires k in m ==> m[k].productId == r.productId
    requires var o := inventory[r.productId];
             && t.available >= 0 && t.reserved >= 0 && t.sold >= 0
             && t.reserved == o.reserved - OldWeight(Held(r.productId), m, k) + Weight(Held(r.productId), r)
             && t.sold == o.sold - OldWeight(SoldOf(r.productId), m, k) + Weight(SoldOf(r.productId), r)
             && t.available + t.reserved + t.sold == t.expectedTotal == o.expectedTotal
    ensures LedgerOk(inventory[r.productId := t], m[k := r])
  {
    forall p | p in inventory
      ensures StockOk(p, inventory[r.productId := t][p], m[k := r])
    {
      assert StockOk(p, inventory[p], m);
      TotalPut(Held(p), m, k, r);
      TotalPut(SoldOf(p), m, k, r);
    }
  }

  lemma SalePut(sales: map<Id, Sale>, m: map<Id, Reservation>, log: seq<Entry>, k: Id, r: Reservation, n: Sale,
                e: Entry)
    requires SalesOk(sales, m, log) && r.saleId in sales && !e.UnitsLost?
    requires k in m ==> m[k].saleId == r.saleId
    requires n.remaining >= 0 && n.allocation == sales[r.saleId].allocation
    requires n.remaining + Weight(ActiveIn(r.saleId), r)
             == sales[r.saleId].remaining + OldWeight(ActiveIn(r.saleId), m, k)
    ensures SalesOk(sales[r.saleId := n], m[k := r], log + [e])
  {
    forall s ensures Lost(log + [e], s) == Lost(log, s) {
      LostNext(log, e, s);
    }
    forall s | s in sales
      ensures SaleOk(s, sales[r.saleId := n][s], m[k := r], log + [e])
    {
      assert SaleOk(s, sales[s], m, log);
      TotalPut(ActiveIn(s), m, k, r);
    }
  }

  lemma LimitPut(sales: map<Id, Sale>, m: map<Id, Reservation>, k: Id, r: Reservation, n: Sale)
    requires LimitOk(sales, m) && r.saleId in sales && n.maxPerUser == sales[r.saleId].maxPerUser
    requires k in m ==> m[k].saleId == r.saleId && m[k].userId == r.userId
    requires Total(ActiveBy(r.saleId, r.userId), m) - OldWeight(ActiveBy(r.saleId, r.userId), m, k)
             + Weight(ActiveBy(r.saleId, r.userId), r) <= n.maxPerUser
    ensures LimitOk(sales[r.saleId := n], m[k := r])
  {
    forall s, u | s in sales
      ensures Total(ActiveBy(s, u), m[k := r]) <= sales[r.saleId := n][s].maxPerUser
    {
      TotalPut(ActiveBy(s, u), m, k, r);
    }
  }

  lemma RefsPut(products: map<Id, Product>, inventory: map<Id, Stock>, sales: map<Id, Sale>, m: map<Id, Reservation>,
                k: Id, r: Reservation, t: Stock, n: Sale)
    requires RefsOk(products, inventory, sales, m)
    requires r.saleId in sales && r.productId in inventory && r.quantity >= 1
    requires sales[r.saleId].productId == r.productId == n.productId
    ensures RefsOk(products, inventory[r.productId := t], sales[r.saleId := n], m[k := r])
  {
  }

  lemma OrdersPut(orders: map<Id, Order>, m: map<Id, Reservation>, k: Id, r: Reservation, oid: Id, o: Order)
    requires OrdersOk(orders, m)
    requires o.reservationId == k && OrderMatches(o, r)
    requires if k in m then OrderFor(orders, oid, k) else oid !in orders
    ensures OrdersOk(orders[oid := o], m[k := r])
  {
    var after := orders[oid := o];
    forall p, rid ensures OrderFor(after, p, rid) <==> OrderFor(orders, p, rid) || (p == oid && rid == k) {
    }
    forall p | p in after ensures OrderRefers(after[p], m[k := r]) {
      if p != oid {
        assert OrderRefers(orders[p], m);
        assert OrderFor(orders, p, orders[p].reservationId);
      }
    }
    forall p, q, rid | OrderFor(after, p, rid) && OrderFor(after, q, rid) ensures p == q {
      if k !in m && rid == k {
        assert OrderFor(orders, p, rid) ==> OrderRefers(orders[p], m);
        assert OrderFor(orders, q, rid) ==> OrderRefers(orders[q], m);
      }
    }
    var rows := m[k := r];
    forall rid | rid in rows ensures exists p :: OrderFor(after, p, rid) {
      if rid == k {
        assert OrderFor(after, oid, rid);
      } else {
        var p :| OrderFor(orders, p, rid);
        assert OrderFor(after, p, rid);
      }
    }
  }

  lemma KeysPut(keys: map<Id, KeyRow>, orders: map<Id, Order>, m: map<Id, Reservation>,
                k: Id, r: Reservation, oid: Id, o: Order)
    requires KeysOk(keys, orders, m)
    requires o.reservationId == k
    requires oid in orders ==> orders[oid].reservationId == k
    requires k in m ==> forall c :: ReceiptMatches(c, m[k]) ==> ReceiptMatches(c, r)
    ensures KeysOk(keys, orders[oid := o], m[k := r])
  {
    forall x | x in keys ensures KeyOk(keys[x], orders[oid := o], m[k := r]) {
      assert KeyOk(keys[x], orders, m);
    }
  }

  lemma KeysAdd(keys: map<Id, KeyRow>, orders: map<Id, Order>, m: map<Id, Reservation>, key: Id, row: KeyRow)
    requires KeysOk(keys, orders, m) && key !in keys && KeyOk(row, orders, m)
    requires row.response.value.Accepted? ==>
               forall l :: !Accepts(keys, l, row.response.value.receipt.reservationId)
    ensures KeysOk(keys[key := row], orders, m)
  {
    var after := keys[key := row];
    forall k, rid
      ensures Accepts(after, k, rid) <==>
              if k == key then Accepts(map[key := row], key, rid) else Accepts(keys, k, rid)
    {
    }
  }

  lemma JournalPut(log: seq<Entry>, inventory: map<Id, Stock>, m: map<Id, Reservation>, e: Entry,
                   k: Id, r: Reservation, t: Stock)
    requires JournalOk(log, inventory, m)
    requires r.productId in inventory
    requires Post(BookOf(inventory, m), e)
             == Some(Book(BookOf(inventory, m).counters[r.productId := CountersOf(t)],
                          BookOf(inventory, m).items[k := ItemOf(r)]))
    ensures JournalOk(log + [e], inventory[r.productId := t], m[k := r])
  {
    ReplayNext(log, e);
    var b, c := BookOf(inventory, m), BookOf(inventory[r.productId := t], m[k := r]);
    assert b.counters[r.productId := CountersOf(t)] == c.counters;
    assert b.items[k := ItemOf(r)] == c.items;
  }

  /** Writing a row that was not paid and is not paid leaves the set of paid orders alone. */
  lemma PaymentsPut(payments: map<Id, Payment>, orders: map<Id, Order>, m: map<Id, Reservation>,
                    k: Id, r: Reservation, oid: Id, o: Order)
    requires PaymentsOk(payments, orders, m) && OrdersOk(orders, m)
    requires o.reservationId == k && r.state != Paid && (k in m ==> m[k].state != Paid)
    requires oid in orders ==> orders[oid].reservationId == k
    ensures PaymentsOk(payments, orders[oid := o], m[k := r])
  {
    var after, rows := orders[oid := o], m[k := r];
    forall x ensures IsPaid(after, rows, x) <==> IsPaid(orders, m, x) {
      assert x in orders ==> OrderRefers(orders[x], m);
    }
    forall x | x in payments ensures PaymentRefers(payments[x], after) {
      assert PaymentRefers(payments[x], orders);
    }
    assert PaymentsOk(payments, after, rows);
  }

  // ---------------------------------------------------------------- Open

  lemma OpenKeepsKeys(db: Db, w: Opening)
    requires KeysOk(db.keys, db.orders, db.reservations) && CanOpen(db, w)
    ensures var d := Open(db, w); KeysOk(d.keys, d.orders, d.reservations)
  {
    var d := Open(db, w);
    KeysPut(db.keys, db.orders, db.reservations, w.rid, ReservationOf(w), w.oid, OrderOf(w));
    assert OrderFor(d.orders, w.oid, w.rid);
    forall l ensures !Accepts(db.keys, l, w.rid) {
      assert l in db.keys ==> KeyOk(db.keys[l], db.orders, db.reservations);
    }
    KeysAdd(db.keys, d.orders, d.reservations, w.key, AcceptedRow(w));
  }

  lemma OpenKeepsStock(db: Db, w: Opening)
    requires LedgerOk(db.inventory, db.reservations) && CanOpen(db, w)
    ensures var d := Open(db, w); LedgerOk(d.inventory, d.reservations)
  {
    var t := db.inventory[w.productId];
    assert StockOk(w.productId, t, db.reservations);
    StockPut(db.inventory, db.reservations, w.rid, ReservationOf(w),
             t.(available := t.available - w.quantity, reserved := t.reserved + w.quantity));
  }

  lemma OpenKeepsSales(db: Db, w: Opening)
    requires SalesOk(db.sales, db.reservations, db.journal) && LimitOk(db.sales, db.reservations) && CanOpen(db, w)
    ensures var d := Open(db, w); SalesOk(d.sales, d.reservations, d.journal) && LimitOk(d.sales, d.reservations)
  {
    var s := db.sales[w.saleId];
    var n := s.(remaining := s.remaining - w.quantity);
    SalePut(db.sales, db.reservations, db.journal, w.rid, ReservationOf(w), n, Opened(w.rid, w.productId, w.quantity));
    LimitPut(db.sales, db.reservations, w.rid, ReservationOf(w), n);
  }

  lemma OpenKeepsJournal(db: Db, w: Opening)
    requires JournalOk(db.journal, db.inventory, db.reservations) && CanOpen(db, w)
    ensures var d := Open(db, w); JournalOk(d.journal, d.inventory, d.reservations)
  {
    var t := db.inventory[w.productId];
    JournalPut(db.journal, db.inventory, db.reservations, Opened(w.rid, w.productId, w.quantity), w.rid,
               ReservationOf(w),
               t.(available := t.available - w.quantity, reserved := t.reserved + w.quantity));
  }

  /** A committed reservation keeps every check, the purchase limit included. */
  lemma OpenKeepsInv(db: Db, w: Opening)
    requires Inv(db) && CanOpen(db, w)
    ensures Inv(Open(db, w))
  {
    hide RefsOk, LedgerOk, SalesOk, LimitOk, OrdersOk, KeysOk, PaymentsOk, JournalOk;
    OpenKeepsStock(db, w);
    OpenKeepsSales(db, w);
    OpenKeepsJournal(db, w);
    OpenKeepsKeys(db, w);
    OrdersPut(db.orders, db.reservations, w.rid, ReservationOf(w), w.oid, OrderOf(w));
    PaymentsPut(db.payments, db.orders, db.reservations, w.rid, ReservationOf(w), w.oid, OrderOf(w));
    RefsPut(db.products, db.inventory, db.sales, db.reservations, w.rid, ReservationOf(w),
            Open(db, w).inventory[w.productId], Open(db, w).sales[w.saleId]);
  }

  // ---------------------------------------------------------------- Refuse

  lemma RefuseKeepsInv(db: Db, key: Id, row: KeyRow, refusal: Refusal)
    requires Inv(db) && key !in db.keys
    ensures Inv(Refuse(db, key, row, refusal))
  {
    hide RefsOk, LedgerOk, SalesOk, LimitOk, OrdersOk, KeysOk, PaymentsOk, JournalOk;
    KeysAdd(db.keys, db.orders, db.reservations, key, row.(response := Some(Declined(refusal))));
  }

  lemma LoseKeepsSales(sales: map<Id, Sale>, m: map<Id, Reservation>, log: seq<Entry>, saleId: Id, q: int)
    requires SalesOk(sales, m, log) && saleId in sales && 0 <= q <= sales[saleId].remaining
    ensures SalesOk(sales[saleId := sales[saleId].(remaining := sales[saleId].remaining - q)], m,
                    log + [UnitsLost(saleId, q)])
  {
    forall s ensures Lost(log + [UnitsLost(saleId, q)], s) == Lost(log, s) + (if s == saleId then q else 0) {
      LostNext(log, UnitsLost(saleId, q), s);
    }
    forall s | s in sales ensures SaleOk(s, sales[s], m, log) {
    }
  }

  lemma QuietEntry(log: seq<Entry>, inventory: map<Id, Stock>, m: map<Id, Reservation>, e: Entry)
    requires JournalOk(log, inventory, m) && (e.UnitsLost? || e.PaymentNoted?)
    ensures JournalOk(log + [e], inventory, m)
  {
    hide Replay, BookOf;
    ReplayNext(log, e);
  }

  /** The second sold-out branch keeps the invariant only because the ledger counts the units as lost. */
  lemma RefuseAndLoseKeepsInv(db: Db, key: Id, row: KeyRow, saleId: Id, q: int)
    requires Inv(db) && key !in db.keys
    requires saleId in db.sales && 0 <= q <= db.sales[saleId].remaining
    ensures Inv(RefuseAndLose(db, key, row, saleId, q))
  {
    hide RefsOk, LedgerOk, SalesOk, LimitOk, OrdersOk, KeysOk, PaymentsOk, JournalOk;
    var refused := Refuse(db, key, row, ProductSoldOut);
    RefuseKeepsInv(db, key, row, ProductSoldOut);
    LoseKeepsInv(refused, saleId, q);
    assert RefuseAndLose(db, key, row, saleId, q)
        == refused.(sales := db.sales[saleId := db.sales[saleId].(remaining := db.sales[saleId].remaining - q)],
                    journal := db.journal + [UnitsLost(saleId, q)]);
  }

  lemma LoseKeepsInv(db: Db, saleId: Id, q: int)
    requires Inv(db) && saleId in db.sales && 0 <= q <= db.sales[saleId].remaining
    ensures Inv(db.(sales := db.sales[saleId := db.sales[saleId].(remaining := db.sales[saleId].remaining - q)],
                    journal := db.journal + [UnitsLost(saleId, q)]))
  {
    hide LedgerOk, SalesOk, LimitOk, OrdersOk, KeysOk, PaymentsOk, JournalOk;
    LoseKeepsSales(db.sales, db.reservations, db.journal, saleId, q);
    QuietEntry(db.journal, db.inventory, db.reservations, UnitsLost(saleId, q));
    SaleKeepsRefs(db.products, db.inventory, db.sales, db.reservations, saleId,
                  db.sales[saleId].(remaining := db.sales[saleId].remaining - q));
    SaleKeepsLimit(db.sales, db.reservations, saleId, db.sales[saleId].(remaining := db.sales[saleId].remaining - q));
  }

  lemma SaleKeepsRefs(products: map<Id, Product>, inventory: map<Id, Stock>, sales: map<Id, Sale>,
                      m: map<Id, Reservation>, s: Id, n: Sale)
    requires RefsOk(products, inventory, sales, m) && n.productId in inventory
    requires s in sales ==> n.productId == sales[s].productId
    ensures RefsOk(products, inventory, sales[s := n], m)
  {
  }

  lemma SaleKeepsLimit(sales: map<Id, Sale>, m: map<Id, Reservation>, s: Id, n: Sale)
    requires LimitOk(sales, m) && s in sales && n.maxPerUser == sales[s].maxPerUser
    ensures LimitOk(sales[s := n], m)
  {
  }

  // ---------------------------------------------------------------- Move

  /** The units of a live, unpaid reservation are always covered by `reserved`: the `reserved >= q`
      guards of cancel, expire and pay cannot miss. */
  lemma GuardNeverMisses(db: Db, rid: Id)
    requires RefsOk(db.products, db.inventory, db.sales, db.reservations) && LedgerOk(db.inventory, db.reservations)
    requires rid in db.reservations &&
             (db.reservations[rid].state == Pending || db.reservations[rid].state == Confirmed)
    ensures var r := db.reservations[rid];
            r.productId in db.inventory &&
            db.inventory[r.productId].reserved >= r.quantity
  {
    var r := db.reservations[rid];
    assert Refers(r, db.sales) && SaleRefers(db.sales[r.saleId], db.inventory);
    assert StockOk(r.productId, db.inventory[r.productId], db.reservations);
    assert Positive(db.reservations) by {
      forall k | k in db.reservations ensures Refers(db.reservations[k], db.sales) {
      }
    }
    TotalCovers(Held(r.productId), db.reservations, rid);
  }

  lemma MoveKeepsStock(db: Db, rid: Id, oid: Id, to: ReservationState)
    requires LedgerOk(db.inventory, db.reservations) && CanMove(db, rid, oid, to) && db.reservations[rid].quantity >= 1
    requires db.inventory[db.reservations[rid].productId].reserved >= db.reservations[rid].quantity
    ensures var d := Move(db, rid, oid, to); LedgerOk(d.inventory, d.reservations)
  {
    var r := db.reservations[rid];
    assert StockOk(r.productId, db.inventory[r.productId], db.reservations);
    StockPut(db.inventory, db.reservations, rid, r.(state := to),
             StockAfter(db.inventory[r.productId], to, r.quantity));
  }

  lemma MoveKeepsSales(db: Db, rid: Id, oid: Id, to: ReservationState)
    requires SalesOk(db.sales, db.reservations, db.journal) && LimitOk(db.sales, db.reservations)
    requires CanMove(db, rid, oid, to) && db.reservations[rid].quantity >= 1
    ensures var d := Move(db, rid, oid, to);
            SalesOk(d.sales, d.reservations, d.journal) &&
            LimitOk(d.sales, d.reservations)
  {
    var r := db.reservations[rid];
    var n := SaleAfter(db.sales[r.saleId], to, r.quantity);
    assert SaleOk(r.saleId, db.sales[r.saleId], db.reservations, db.journal);
    SalePut(db.sales, db.reservations, db.journal, rid, r.(state := to), n, Moved(rid, r.state, to));
    LimitPut(db.sales, db.reservations, rid, r.(state := to), n);
  }

  lemma MoveKeepsOrders(db: Db, rid: Id, oid: Id, to: ReservationState)
    requires OrdersOk(db.orders, db.reservations) && KeysOk(db.keys, db.orders, db.reservations)
    requires CanMove(db, rid, oid, to)
    ensures var d := Move(db, rid, oid, to);
            OrdersOk(d.orders, d.reservations) &&
            KeysOk(db.keys, d.orders, d.reservations)
  {
    var r, o := db.reservations[rid], db.orders[oid];
    assert OrderRefers(o, db.reservations) && OrderFor(db.orders, oid, rid);
    OrdersPut(db.orders, db.reservations, rid, r.(state := to), oid, o.(state := Follows(to)));
    KeysPut(db.keys, db.orders, db.reservations, rid, r.(state := to), oid, o.(state := Follows(to)));
  }

  lemma MoveKeepsJournal(db: Db, rid: Id, oid: Id, to: ReservationState)
    requires JournalOk(db.journal, db.inventory, db.reservations) && CanMove(db, rid, oid, to)
    ensures var d := Move(db, rid, oid, to); JournalOk(d.journal, d.inventory, d.reservations)
  {
    var r := db.reservations[rid];
    JournalPut(db.journal, db.inventory, db.reservations, Moved(rid, r.state, to), rid, r.(state := to),
               StockAfter(db.inventory[r.productId], to, r.quantity));
  }

  lemma MoveKeepsCore(db: Db, rid: Id, oid: Id, to: ReservationState)
    requires Core(db) && CanMove(db, rid, oid, to)
    ensures Core(Move(db, rid, oid, to))
  {
    hide LedgerOk, SalesOk, LimitOk, OrdersOk, KeysOk, PaymentsOk, JournalOk;
    var r := db.reservations[rid];
    assert Refers(r, db.sales);
    GuardNeverMisses(db, rid);
    MoveKeepsStock(db, rid, oid, to);
    MoveKeepsSales(db, rid, oid, to);
    MoveKeepsOrders(db, rid, oid, to);
    MoveKeepsJournal(db, rid, oid, to);
    RefsPut(db.products, db.inventory, db.sales, db.reservations, rid, r.(state := to),
            StockAfter(db.inventory[r.productId], to, r.quantity), SaleAfter(db.sales[r.saleId], to, r.quantity));
  }

  /** Confirming, cancelling and expiring keep the invariant. */
  lemma MoveKeepsInv(db: Db, rid: Id, oid: Id, to: ReservationState)
    requires Inv(db) && CanMove(db, rid, oid, to) && to != Paid
    ensures Inv(Move(db, rid, oid, to))
  {
    hide RefsOk, LedgerOk, SalesOk, LimitOk, OrdersOk, KeysOk, PaymentsOk, JournalOk;
    MoveKeepsCore(db, rid, oid, to);
    PaymentsPut(db.payments, db.orders, db.reservations, rid, db.reservations[rid].(state := to), oid,
                db.orders[oid].(state := Follows(to)));
  }

  // ---------------------------------------------------------------- Pay

  lemma CanPayMoves(db: Db, key: Id, oid: Id)
    requires RefsOk(db.products, db.inventory, db.sales, db.reservations) && CanPay(db, key, oid, Successful)
    ensures CanMove(db, db.orders[oid].reservationId, oid, Paid)
  {
    var r := db.reservations[db.orders[oid].reservationId];
    assert Refers(r, db.sales) && SaleRefers(db.sales[r.saleId], db.inventory);
  }

  lemma EntryKeepsSales(sales: map<Id, Sale>, m: map<Id, Reservation>, log: seq<Entry>, e: Entry)
    requires SalesOk(sales, m, log) && !e.UnitsLost?
    ensures SalesOk(sales, m, log + [e])
  {
    forall s ensures Lost(log + [e], s) == Lost(log, s) {
      LostNext(log, e, s);
    }
    forall s | s in sales ensures SaleOk(s, sales[s], m, log) {
    }
  }

  lemma NoteKeepsCore(db: Db, e: Entry)
    requires Core(db) && e.PaymentNoted?
    ensures Core(db.(journal := db.journal + [e]))
  {
    hide RefsOk, LedgerOk, SalesOk, LimitOk, OrdersOk, KeysOk, PaymentsOk, JournalOk;
    QuietEntry(db.journal, db.inventory, db.reservations, e);
    EntryKeepsSales(db.sales, db.reservations, db.journal, e);
  }

  lemma FailKeepsCore(db: Db, oid: Id)
    requires Core(db) && oid in db.orders && db.orders[oid].reservationId in db.reservations
    requires var s := db.reservations[db.orders[oid].reservationId].state; s == Pending || s == Confirmed
    ensures Core(db.(orders := db.orders[oid := db.orders[oid].(state := PaymentFailed)]))
  {
    hide RefsOk, LedgerOk, SalesOk, LimitOk, KeysOk, PaymentsOk, JournalOk;
    var o := db.orders[oid];
    var rid := o.reservationId;
    assert OrderRefers(o, db.reservations) && OrderFor(db.orders, oid, rid);
    assert db.reservations[rid := db.reservations[rid]] == db.reservations;
    OrdersPut(db.orders, db.reservations, rid, db.reservations[rid], oid, o.(state := PaymentFailed));
    KeysPut(db.keys, db.orders, db.reservations, rid, db.reservations[rid], oid, o.(state := PaymentFailed));
  }

  lemma PaymentsAdd(payments: map<Id, Payment>, orders: map<Id, Order>, m: map<Id, Reservation>,
                    after: map<Id, Order>, rows: map<Id, Reservation>, key: Id, y: Payment)
    requires PaymentsOk(payments, orders, m) && key !in payments
    requires after.Keys == orders.Keys && PaymentRefers(y, after)
    requires forall o :: IsPaid(after, rows, o) <==> IsPaid(orders, m, o) || (y.status == Succeeded && o == y.orderId)
    requires y.status == Succeeded ==> !IsPaid(orders, m, y.orderId)
    ensures PaymentsOk(payments[key := y], after, rows)
  {
    var all := payments[key := y];
    forall k, o
      ensures PaidFor(all, k, o) <==> PaidFor(payments, k, o) || (k == key && o == y.orderId && y.status == Succeeded)
    {
    }
    forall k | k in all ensures PaymentRefers(all[k], after) {
      assert k != key ==> PaymentRefers(payments[k], orders);
    }
    forall o | IsPaid(after, rows, o) ensures exists k :: PaidFor(all, k, o) {
      if IsPaid(orders, m, o) {
        var k :| PaidFor(payments, k, o);
        assert PaidFor(all, k, o);
      } else {
        assert PaidFor(all, key, o);
      }
    }
    assert PaymentsOk(all, after, rows);
  }

  lemma PaidAfterPay(db: Db, key: Id, pid: Id, oid: Id, outcome: Outcome, o: Id)
    requires OrdersOk(db.orders, db.reservations)
    requires CanPay(db, key, oid, outcome)
    requires outcome == Successful ==> CanMove(db, db.orders[oid].reservationId, oid, Paid)
    ensures var d := Pay(db, key, pid, oid, outcome);
            IsPaid(d.orders, d.reservations, o) <==>
            IsPaid(db.orders, db.reservations, o) || (outcome == Successful && o == oid)
  {
    hide PaymentRow, StockAfter, SaleAfter;
    if o in db.orders {
      SameOrder(db, oid, o);
    }
  }

  lemma SameOrder(db: Db, oid: Id, o: Id)
    requires OrdersOk(db.orders, db.reservations) && oid in db.orders && o in db.orders
    ensures db.orders[o].reservationId == db.orders[oid].reservationId ==> o == oid
  {
    assert OrderFor(db.orders, oid, db.orders[oid].reservationId);
    assert OrderFor(db.orders, o, db.orders[o].reservationId);
  }

  lemma PayKeepsPayments(db: Db, key: Id, pid: Id, oid: Id, outcome: Outcome)
    requires PaymentsOk(db.payments, db.orders, db.reservations) && OrdersOk(db.orders, db.reservations)
    requires CanPay(db, key, oid, outcome)
    requires outcome == Successful ==> CanMove(db, db.orders[oid].reservationId, oid, Paid)
    ensures var d := Pay(db, key, pid, oid, outcome); PaymentsOk(d.payments, d.orders, d.reservations)
  {
    var d := Pay(db, key, pid, oid, outcome);
    forall o ensures IsPaid(d.orders, d.reservations, o) <==>
                     IsPaid(db.orders, db.reservations, o) || (outcome == Successful && o == oid) {
      PaidAfterPay(db, key, pid, oid, outcome, o);
    }
    PaymentsAdd(db.payments, db.orders, db.reservations, d.orders, d.reservations, key, PaymentRow(pid, oid, outcome));
  }

  /** A new payment callback keeps the invariant: at most one success per order, and only with the move to paid. */
  lemma PayKeepsInv(db: Db, key: Id, pid: Id, oid: Id, outcome: Outcome)
    requires Inv(db) && CanPay(db, key, oid, outcome)
    ensures outcome == Successful ==> CanMove(db, db.orders[oid].reservationId, oid, Paid)
    ensures Inv(Pay(db, key, pid, oid, outcome))
  {
    hide RefsOk, LedgerOk, SalesOk, LimitOk, OrdersOk, KeysOk, PaymentsOk, JournalOk;
    var e := PaymentNoted(pid, StatusOf(outcome));
    var rid := db.orders[oid].reservationId;
    match outcome
    case Successful =>
      CanPayMoves(db, key, oid);
      PayKeepsPayments(db, key, pid, oid, outcome);
      MoveKeepsCore(db, rid, oid, Paid);
      NoteKeepsCore(Move(db, rid, oid, Paid), e);
    case Failed =>
      PayKeepsPayments(db, key, pid, oid, outcome);
      FailKeepsCore(db, oid);
      NoteKeepsCore(db.(orders := db.orders[oid := db.orders[oid].(state := PaymentFailed)]), e);
    case Delayed =>
      PayKeepsPayments(db, key, pid, oid, outcome);
      NoteKeepsCore(db, e);
  }

  // ---------------------------------------------------------------- catalog and purge

  lemma LevelKeepsJournal(log: seq<Entry>, inventory: map<Id, Stock>, m: map<Id, Reservation>, id: Id, t: Stock)
    requires JournalOk(log, inventory, m)
    requires if id in inventory then t.reserved == inventory[id].reserved && t.sold == inventory[id].sold
             else t.reserved == 0 && t.sold == 0
    ensures JournalOk(log + [StockSet(id, t.available)], inventory[id := t], m)
  {
    var e := StockSet(id, t.available);
    ReplayNext(log, e);
    var b, c := BookOf(inventory, m), BookOf(inventory[id := t], m);
    assert Post(b, e).value.counters == c.counters;
  }

  lemma AddProductKeepsLedger(db: Db, id: Id, level: int)
    requires RefsOk(db.products, db.inventory, db.sales, db.reservations) && LedgerOk(db.inventory, db.reservations)
    requires id !in db.inventory && 0 <= level <= INT4_MAX
    ensures LedgerOk(db.inventory[id := Stock(level, 0, 0, level)], db.reservations)
  {
    forall r | r in db.reservations ensures db.reservations[r].productId != id {
      assert Refers(db.reservations[r], db.sales) && SaleRefers(db.sales[db.reservations[r].saleId], db.inventory);
    }
    TotalNone(Held(id), db.reservations);
    TotalNone(SoldOf(id), db.reservations);
  }

  lemma AddProductKeepsInv(db: Db, id: Id, p: Product, level: int)
    requires Inv(db) && id !in db.inventory && 0 <= level <= INT4_MAX
    ensures Inv(AddProduct(db, id, p, level))
  {
    hide LedgerOk, SalesOk, LimitOk, OrdersOk, KeysOk, PaymentsOk, JournalOk;
    AddProductKeepsLedger(db, id, level);
    LevelKeepsJournal(db.journal, db.inventory, db.reservations, id, Stock(level, 0, 0, level));
    EntryKeepsSales(db.sales, db.reservations, db.journal, StockSet(id, level));
  }

  lemma LevelKeepsStock(products: map<Id, Product>, inventory: map<Id, Stock>, sales: map<Id, Sale>,
                        m: map<Id, Reservation>, id: Id, p: Product, n: int)
    requires RefsOk(products, inventory, sales, m) && LedgerOk(inventory, m) && id in inventory
    requires 0 <= n && n + inventory[id].reserved + inventory[id].sold <= INT4_MAX
    ensures var t := inventory[id];
            var after := inventory[id := t.(available := n, expectedTotal := n + t.reserved + t.sold)];
            LedgerOk(after, m) && RefsOk(products[id := p], after, sales, m)
  {
    assert StockOk(id, inventory[id], m);
  }

  /** Setting the stock level keeps the ledger, whatever is reserved or sold. */
  lemma EditProductKeepsInv(db: Db, id: Id, p: Product, level: Option<int>)
    requires Inv(db) && CanEdit(db, id, level)
    ensures Inv(EditProduct(db, id, p, level))
  {
    hide LedgerOk, SalesOk, LimitOk, OrdersOk, KeysOk, PaymentsOk, JournalOk;
    match level
    case None =>
    case Some(n) =>
      var t := db.inventory[id];
      LevelKeepsStock(db.products, db.inventory, db.sales, db.reservations, id, p, n);
      LevelKeepsJournal(db.journal, db.inventory, db.reservations, id,
                        t.(available := n, expectedTotal := n + t.reserved + t.sold));
      EntryKeepsSales(db.sales, db.reservations, db.journal, StockSet(id, n));
  }

  lemma AddSaleKeepsSales(db: Db, id: Id, s: Sale)
    requires RefsOk(db.products, db.inventory, db.sales, db.reservations)
    requires SalesOk(db.sales, db.reservations, db.journal) && LimitOk(db.sales, db.reservations)
    requires CanAddSale(db, id, s)
    ensures SalesOk(db.sales[id := s], db.reservations, db.journal) && LimitOk(db.sales[id := s], db.reservations)
  {
    forall r | r in db.reservations ensures db.reservations[r].saleId != id {
      assert Refers(db.reservations[r], db.sales);
    }
    TotalNone(ActiveIn(id), db.reservations);
    forall u ensures Total(ActiveBy(id, u), db.reservations) == 0 {
      TotalNone(ActiveBy(id, u), db.reservations);
    }
    forall x | x in db.sales ensures SaleOk(x, db.sales[x], db.reservations, db.journal) {
    }
  }

  lemma AddSaleKeepsInv(db: Db, id: Id, s: Sale)
    requires Inv(db) && CanAddSale(db, id, s)
    ensures Inv(AddSale(db, id, s))
  {
    hide RefsOk, LedgerOk, SalesOk, LimitOk, OrdersOk, KeysOk, PaymentsOk, JournalOk;
    AddSaleKeepsSales(db, id, s);
    SaleKeepsRefs(db.products, db.inventory, db.sales, db.reservations, id, s);
  }

  lemma SetSaleStateKeepsInv(db: Db, id: Id, state: SaleState)
    requires Inv(db) && id in db.sales
    ensures Inv(SetSaleState(db, id, state))
  {
    hide LedgerOk, LimitOk, OrdersOk, KeysOk, PaymentsOk, JournalOk;
    var n := db.sales[id].(state := state);
    SaleKeepsRefs(db.products, db.inventory, db.sales, db.reservations, id, n);
    SaleKeepsLimit(db.sales, db.reservations, id, n);
    assert SalesOk(db.sales[id := n], db.reservations, db.journal) by {
      forall x | x in db.sales ensures SaleOk(x, db.sales[x], db.reservations, db.journal) {
      }
    }
  }

  lemma PurgeKeepsInv(db: Db, expired: set<Id>)
    requires Inv(db)
    ensures Inv(Purge(db, expired))
  {
    hide RefsOk, LedgerOk, SalesOk, LimitOk, OrdersOk, PaymentsOk, JournalOk;
    var kept := db.keys - expired;
    assert KeysOk(kept, db.orders, db.reservations) by {
      forall k | k in kept ensures KeyOk(kept[k], db.orders, db.reservations) {
        assert KeyOk(db.keys[k], db.orders, db.reservations);
      }
      assert forall k, rid :: Accepts(kept, k, rid) ==> Accepts(db.keys, k, rid);
    }
  }

  lemma EmptyHasInv()
    ensures Inv(EMPTY)
  {
    assert BookOf(EMPTY.inventory, EMPTY.reservations) == Book(map[], map[]);
  }
}
