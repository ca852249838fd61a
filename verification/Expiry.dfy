/** ExpireBatch: which rows a batch takes, what it gives back, and that repeated batches drain. */
module Expiry {
  import opened Domain
  import opened Tables
  import opened Ledger
  import opened Scripts

  /** state='pending' AND expires_at <= at. */
  function DueIds(m: map<Id, Reservation>, at: int): set<Id> {
    set r | r in m && m[r].state == Pending && m[r].expiresAt <= at
  }

  /** ORDER BY expires_at LIMIT n, with nobody else holding a lock. */
  ghost predicate Selected(db: Db, batch: seq<Due>, limit: nat, at: int) {
    && BatchOk(db, batch)
    && IdsOf(batch) <= DueIds(db.reservations, at)
    && (forall i, j :: 0 <= i < j < |batch| ==> batch[i].row.expiresAt <= batch[j].row.expiresAt)
    && (forall i, r :: 0 <= i < |batch| && r in DueIds(db.reservations, at) && r !in IdsOf(batch) ==>
          batch[i].row.expiresAt <= db.reservations[r].expiresAt)
    && |batch| == (if |DueIds(db.reservations, at)| <= limit then |DueIds(db.reservations, at)| else limit)
  }

  // ---------------------------------------------------------------- draining

  lemma {:induction false} BatchIsDistinct(batch: seq<Due>)
    requires forall i, j :: 0 <= i < j < |batch| ==> batch[i].rid != batch[j].rid
    ensures |IdsOf(batch)| == |batch|
  {
    if batch != [] {
      var init, last := batch[..|batch| - 1], batch[|batch| - 1];
      BatchIsDistinct(init);
      assert batch == init + [last];
      assert IdsOf(batch) == IdsOf(init) + {last.rid};
      assert last.rid !in IdsOf(init);
    }
  }

  lemma ExpiredIsNotDue(m: map<Id, Reservation>, r: Id, at: int)
    requires r in m
    ensures DueIds(m[r := m[r].(state := Expired)], at) == DueIds(m, at) - {r}
  {
  }

  lemma {:induction false} ExpireRemovesDue(db: Db, batch: seq<Due>, at: int)
    requires BatchOk(db, batch)
    ensures DueIds(ExpireAll(db, batch).reservations, at) == DueIds(db.reservations, at) - IdsOf(batch)
  {
    if batch != [] {
      var init, last := batch[..|batch| - 1], batch[|batch| - 1];
      assert BatchOk(db, init);
      ExpireRemovesDue(db, init, at);
      ExpireFrame(db, init, last);
      ExpiredIsNotDue(ExpireAll(db, init).reservations, last.rid, at);
      assert batch == init + [last];
      assert IdsOf(batch) == IdsOf(init) + {last.rid};
    }
  }

  lemma DifferenceSize(a: set<Id>, b: set<Id>)
    requires b <= a
    ensures |a - b| == |a| - |b|
  {
    assert a == (a - b) + b;
  }

  /** One batch takes min(limit, due) rows off the due ones. */
  lemma BatchShrinksDue(db: Db, batch: seq<Due>, limit: nat, at: int)
    requires Selected(db, batch, limit, at)
    ensures var n := |DueIds(db.reservations, at)|;
            |DueIds(ExpireAll(db, batch).reservations, at)| == if n <= limit then 0 else n - limit
  {
    hide ExpireAll, DueIds, IdsOf, DueOk;
    ExpireRemovesDue(db, batch, at);
    BatchIsDistinct(batch);
    DifferenceSize(DueIds(db.reservations, at), IdsOf(batch));
  }

  /** Batches at a fixed time, one after another, nothing else running. */
  ghost predicate Rounds(dbs: seq<Db>, limit: nat, at: int) {
    && |dbs| >= 1
    && (forall i :: 0 <= i < |dbs| - 1 ==> Round(dbs[i], dbs[i + 1], limit, at))
  }

  ghost predicate Round(db: Db, after: Db, limit: nat, at: int) {
    exists batch :: Selected(db, batch, limit, at) && after == ExpireAll(db, batch)
  }

  /** After k rounds, max(0, n - k * limit) rows are due: ceil(n / limit) rounds drain everything. */
  lemma {:induction false} RoundsDrain(dbs: seq<Db>, limit: nat, at: int)
    requires Rounds(dbs, limit, at) && limit >= 1
    ensures var n, k := |DueIds(dbs[0].reservations, at)|, |dbs| - 1;
            |DueIds(dbs[k].reservations, at)| == if n <= k * limit then 0 else n - k * limit
  {
    hide Selected, ExpireAll;
    var k := |dbs| - 1;
    if k > 0 {
      var init := dbs[..k];
      assert forall i :: 0 <= i < |init| ==> init[i] == dbs[i];
      RoundsDrain(init, limit, at);
      assert Round(dbs[k - 1], dbs[k - 1 + 1], limit, at);
      var batch :| Selected(dbs[k - 1], batch, limit, at) && dbs[k] == ExpireAll(dbs[k - 1], batch);
      BatchShrinksDue(dbs[k - 1], batch, limit, at);
      assert k * limit == (k - 1) * limit + limit;
    }
  }

  // ---------------------------------------------------------------- what is given back

  function UnitsOf(batch: seq<Due>, p: Id): int {
    if batch == [] then 0
    else
      var d := batch[|batch| - 1];
      UnitsOf(batch[..|batch| - 1], p) + (if d.row.productId == p then d.row.quantity else 0)
  }

  /** A batch moves exactly the expired units of each product from reserved back to available. */
  lemma {:induction false} BatchRestoresUnits(db: Db, batch: seq<Due>, p: Id)
    requires BatchOk(db, batch) && p in db.inventory
    ensures var d := ExpireAll(db, batch);
            p in d.inventory &&
            d.inventory[p] == db.inventory[p].(available := db.inventory[p].available + UnitsOf(batch, p),
                                               reserved := db.inventory[p].reserved - UnitsOf(batch, p))
  {
    if batch != [] {
      var init, last := batch[..|batch| - 1], batch[|batch| - 1];
      assert BatchOk(db, init);
      BatchRestoresUnits(db, init, p);
      ExpireFrame(db, init, last);
    }
  }

  function Units(batch: seq<Due>): int {
    if batch == [] then 0 else Units(batch[..|batch| - 1]) + batch[|batch| - 1].row.quantity
  }

  /** `Restored` counts rows; it is the number of units returned exactly when every quantity is one. */
  lemma {:induction false} RestoredIsUnitsExactlyWhen(batch: seq<Due>)
    requires forall i :: 0 <= i < |batch| ==> batch[i].row.quantity >= 1
    ensures Units(batch) >= |batch|
    ensures Units(batch) == |batch| <==> forall i :: 0 <= i < |batch| ==> batch[i].row.quantity == 1
  {
    if batch != [] {
      var init := batch[..|batch| - 1];
      RestoredIsUnitsExactlyWhen(init);
      assert forall i :: 0 <= i < |init| ==> init[i] == batch[i];
    }
  }

  // ---------------------------------------------------------------- a batch, column by column

  function UnitsFor(batch: seq<Due>, s: Id): int {
    if batch == [] then 0
    else
      var d := batch[|batch| - 1];
      UnitsFor(batch[..|batch| - 1], s) + (if d.row.saleId == s then d.row.quantity else 0)
  }

  lemma {:induction false} BatchRefillsSale(db: Db, batch: seq<Due>, s: Id)
    requires BatchOk(db, batch) && s in db.sales
    ensures var d := ExpireAll(db, batch);
            s in d.sales &&
            d.sales[s] == db.sales[s].(remaining := db.sales[s].remaining + UnitsFor(batch, s))
  {
    if batch != [] {
      var init, last := batch[..|batch| - 1], batch[|batch| - 1];
      assert BatchOk(db, init);
      BatchRefillsSale(db, init, s);
      ExpireFrame(db, init, last);
    }
  }

  lemma {:induction false} BatchKeepsKeys(db: Db, batch: seq<Due>)
    ensures var d := ExpireAll(db, batch);
            && d.inventory.Keys == db.inventory.Keys && d.sales.Keys == db.sales.Keys && d.orders.Keys == db.orders.Keys
            && d.products == db.products && d.payments == db.payments && d.keys == db.keys
  {
    hide ValidTransition;
    if batch != [] {
      BatchKeepsKeys(db, batch[..|batch| - 1]);
    }
  }

  /** The one order of each row taken follows it. */
  lemma {:induction false} BatchMarksOrder(db: Db, batch: seq<Due>, o: Id)
    requires BatchOk(db, batch) && o in db.orders
    ensures o in ExpireAll(db, batch).orders
    ensures ExpireAll(db, batch).orders[o] ==
            if exists i :: 0 <= i < |batch| && batch[i].oid == o then db.orders[o].(state := Follows(Expired))
            else db.orders[o]
  {
    if batch != [] {
      var n := |batch| - 1;
      assert BatchOk(db, batch[..n]);
      BatchMarksOrder(db, batch[..n], o);
      ExpireFrame(db, batch[..n], batch[n]);
      if i :| 0 <= i < |batch| && batch[i].oid == o && i < n {
        assert batch[..n][i].oid == o;
      }
    }
  }

  lemma TakenOrder(db: Db, batch: seq<Due>, o: Id)
    requires BatchOk(db, batch) && OrdersOk(db.orders, db.reservations) && o in db.orders
    ensures (exists i :: 0 <= i < |batch| && batch[i].oid == o) <==> db.orders[o].reservationId in IdsOf(batch)
  {
    if i :| 0 <= i < |batch| && batch[i].oid == o {
      assert DueOk(db, batch[i]) && batch[i] in batch;
    }
    if d :| d in batch && d.rid == db.orders[o].reservationId {
      var i :| 0 <= i < |batch| && batch[i] == d;
      assert DueOk(db, batch[i]) && OrderFor(db.orders, o, d.rid) && OrderFor(db.orders, d.oid, d.rid);
    }
  }

  function RowsOf(ids: set<Id>, m: map<Id, Reservation>, p: Id): set<Id> {
    set r | r in ids && r in m && m[r].productId == p
  }

  function RowsIn(ids: set<Id>, m: map<Id, Reservation>, s: Id): set<Id> {
    set r | r in ids && r in m && m[r].saleId == s
  }

  lemma {:induction false} UnitsAreSums(db: Db, batch: seq<Due>, p: Id, s: Id)
    requires BatchOk(db, batch)
    ensures UnitsOf(batch, p) == Sum(RowsOf(IdsOf(batch), db.reservations, p), db.reservations)
    ensures UnitsFor(batch, s) == Sum(RowsIn(IdsOf(batch), db.reservations, s), db.reservations)
  {
    if batch != [] {
      var n := |batch| - 1;
      var init, last, m := batch[..n], batch[n], db.reservations;
      assert BatchOk(db, init) && DueOk(db, last);
      UnitsAreSums(db, init, p, s);
      NewInBatch(db, batch);
      RowsNext(IdsOf(init), m, last.rid, p, s);
    }
  }

  lemma NewInBatch(db: Db, batch: seq<Due>)
    requires BatchOk(db, batch) && batch != []
    ensures var n := |batch| - 1;
            IdsOf(batch) == IdsOf(batch[..n]) + {batch[n].rid} && batch[n].rid !in IdsOf(batch[..n])
  {
    var n := |batch| - 1;
    assert batch == batch[..n] + [batch[n]];
    IdsNext(batch[..n], batch[n]);
  }

  lemma RowsNext(ids: set<Id>, m: map<Id, Reservation>, r: Id, p: Id, s: Id)
    requires r in m && r !in ids
    ensures Sum(RowsOf(ids + {r}, m, p), m)
            == Sum(RowsOf(ids, m, p), m) + (if m[r].productId == p then m[r].quantity else 0)
    ensures Sum(RowsIn(ids + {r}, m, s), m)
            == Sum(RowsIn(ids, m, s), m) + (if m[r].saleId == s then m[r].quantity else 0)
  {
    if m[r].productId == p {
      SumSplit(RowsOf(ids + {r}, m, p), m, r);
      assert RowsOf(ids + {r}, m, p) - {r} == RowsOf(ids, m, p);
    } else {
      assert RowsOf(ids + {r}, m, p) == RowsOf(ids, m, p);
    }
    if m[r].saleId == s {
      SumSplit(RowsIn(ids + {r}, m, s), m, r);
      assert RowsIn(ids + {r}, m, s) - {r} == RowsIn(ids, m, s);
    } else {
      assert RowsIn(ids + {r}, m, s) == RowsIn(ids, m, s);
    }
  }

  /** The counters, orders and other tables after the rows `taken` have expired. */
  ghost predicate GivenBack(db: Db, d: Db, taken: set<Id>) {
    && d.inventory.Keys == db.inventory.Keys && d.sales.Keys == db.sales.Keys && d.orders.Keys == db.orders.Keys
    && (forall p :: p in db.inventory ==>
          var (t, n) := (db.inventory[p], Sum(RowsOf(taken, db.reservations, p), db.reservations));
          d.inventory[p] == t.(available := t.available + n, reserved := t.reserved - n))
    && (forall s :: s in db.sales ==>
          d.sales[s] == db.sales[s].(remaining := db.sales[s].remaining
                                                  + Sum(RowsIn(taken, db.reservations, s), db.reservations)))
    && (forall o :: o in db.orders ==>
          d.orders[o] == if db.orders[o].reservationId in taken then db.orders[o].(state := Follows(Expired))
                         else db.orders[o])
    && d.products == db.products && d.payments == db.payments && d.keys == db.keys
  }

  /** Exactly the units of the rows taken go back, product by product and sale by sale, and their orders follow. */
  lemma BatchGivesBack(db: Db, batch: seq<Due>)
    requires BatchOk(db, batch) && OrdersOk(db.orders, db.reservations)
    ensures GivenBack(db, ExpireAll(db, batch), IdsOf(batch))
  {
    hide ExpireAll, BatchOk, OrdersOk, IdsOf, Sum, UnitsOf, UnitsFor;
    BatchKeepsKeys(db, batch);
    var d := ExpireAll(db, batch);
    forall p | p in db.inventory
      ensures var (t, n) := (db.inventory[p], Sum(RowsOf(IdsOf(batch), db.reservations, p), db.reservations));
              d.inventory[p] == t.(available := t.available + n, reserved := t.reserved - n)
    {
      BatchRestoresUnits(db, batch, p);
      UnitsAreSums(db, batch, p, p);
    }
    forall s | s in db.sales
      ensures d.sales[s] == db.sales[s].(remaining :=
                db.sales[s].remaining + Sum(RowsIn(IdsOf(batch), db.reservations, s), db.reservations))
    {
      BatchRefillsSale(db, batch, s);
      UnitsAreSums(db, batch, s, s);
    }
    forall o | o in db.orders
      ensures d.orders[o] == if db.orders[o].reservationId in IdsOf(batch) then db.orders[o].(state := Follows(Expired))
                             else db.orders[o]
    {
      BatchMarksOrder(db, batch, o);
      TakenOrder(db, batch, o);
    }
  }

  /** Which reservations a batch changes, and that it leaves none behind unless it is full. */
  ghost predicate TakesDueRows(
    m: map<Id, Reservation>, n: map<Id, Reservation>, taken: set<Id>, limit: nat, at: int)
  {
    && taken <= m.Keys == n.Keys && |taken| <= limit
    && (forall r :: r in taken ==> m[r].state == Pending && m[r].expiresAt <= at && n[r] == m[r].(state := Expired))
    && (forall r :: r in m && r !in taken ==> n[r] == m[r])
    && (forall r, x :: r in taken && x in n && n[x].state == Pending && n[x].expiresAt <= at ==>
          m[r].expiresAt <= n[x].expiresAt)
    && (|taken| < limit ==> forall x :: x in n && n[x].state == Pending ==> n[x].expiresAt > at)
  }

  lemma MarkingTakesDue(m: map<Id, Reservation>, taken: set<Id>, limit: nat, at: int)
    requires taken <= DueIds(m, at) && |taken| <= limit && (|taken| < limit ==> taken == DueIds(m, at))
    requires forall r, x :: r in taken && x in DueIds(m, at) && x !in taken ==> m[r].expiresAt <= m[x].expiresAt
    ensures TakesDueRows(m, MarkAll(m, taken), taken, limit, at)
  {
  }

  lemma TakenComeFirst(db: Db, batch: seq<Due>, limit: nat, at: int, r: Id, x: Id)
    requires Selected(db, batch, limit, at) && r in IdsOf(batch)
    requires x in DueIds(db.reservations, at) && x !in IdsOf(batch)
    ensures r in db.reservations && db.reservations[r].expiresAt <= db.reservations[x].expiresAt
  {
    hide DueOk, DueIds;
    var d :| d in batch && d.rid == r;
    var i :| 0 <= i < |batch| && batch[i] == d;
    DueRow(db, batch, i);
  }

  lemma SelectedTakesDue(db: Db, batch: seq<Due>, limit: nat, at: int)
    requires Selected(db, batch, limit, at)
    ensures TakesDueRows(db.reservations, ExpireAll(db, batch).reservations, IdsOf(batch), limit, at)
    ensures |IdsOf(batch)| == |batch|
  {
    hide ExpireAll, DueOk, IdsOf, DueIds, TakesDueRows, MarkAll;
    MarksAreExpireAll(db, batch);
    BatchIsDistinct(batch);
    var m, due, taken := db.reservations, DueIds(db.reservations, at), IdsOf(batch);
    DifferenceSize(due, taken);
    if |taken| < limit {
      assert due - taken == {};
      assert taken == due;
    }
    DueAreRows(m, at);
    forall r, x | r in taken && x in due && x !in taken ensures m[r].expiresAt <= m[x].expiresAt {
      TakenComeFirst(db, batch, limit, at, r, x);
    }
    MarkingTakesDue(m, taken, limit, at);
  }

  lemma DueAreRows(m: map<Id, Reservation>, at: int)
    ensures DueIds(m, at) <= m.Keys
  {
  }

  lemma DueRow(db: Db, batch: seq<Due>, i: nat)
    requires BatchOk(db, batch) && i < |batch|
    ensures batch[i].rid in db.reservations && batch[i].row == db.reservations[batch[i].rid]
  {
    assert DueOk(db, batch[i]);
  }
}
