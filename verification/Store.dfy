/** The operations of internal/store in statement order, one at a time. Fields are the tables; an early
    return without a commit puts back the tables saved at BEGIN. */
module StoreClass {
  import opened Domain
  import opened Tables
  import opened Fingerprint
  import opened Ledger
  import opened LedgerProofs
  import opened Scripts
  import opened Machine
  import opened Operations
  import opened Expiry
  import opened Checks
  import opened Demo

  datatype MoveReply = Changed | NoSuchReservation | InvalidTransition

  datatype ExpirationResult = ExpirationResult(processed: nat, expired: nat, restored: nat)

  datatype CatalogReply = Done | CatalogInvalid | NotFound | CatalogInternal

  datatype ProductInput = ProductInput(sku: string, name: string, price: int, currency: string, inventory: int,
                                       active: bool)

  datatype ProductEdit = ProductEdit(name: Option<string>, price: Option<int>, active: Option<bool>,
                                     inventory: Option<int>)

  datatype SaleInput = SaleInput(productId: Id, startsAt: int, endsAt: int, allocation: int, maxPerUser: int)

  // ---------------------------------------------------------------- UPDATE orders ... WHERE reservation_id = $1

  function WithOrders(orders: map<Id, Order>, rid: Id, state: OrderState): map<Id, Order> {
    map o | o in orders :: if orders[o].reservationId == rid then orders[o].(state := state) else orders[o]
  }

  function Rewritten(orders: map<Id, Order>, oid: Id, state: OrderState): map<Id, Order>
    requires oid in orders
  {
    orders[oid := orders[oid].(state := state)]
  }

  /** The unique order of the reservation is the only row written. */
  lemma OneOrderIsWritten(orders: map<Id, Order>, reservations: map<Id, Reservation>, rid: Id, oid: Id,
                          state: OrderState)
    requires OrdersOk(orders, reservations) && OrderFor(orders, oid, rid)
    ensures WithOrders(orders, rid, state) == Rewritten(orders, oid, state)
  {
    forall o | o in orders && orders[o].reservationId == rid ensures o == oid {
      assert OrderFor(orders, o, rid);
    }
  }

  /** The reservation's orders follow it, the others stay. */
  ghost predicate Follow(before: map<Id, Order>, after: map<Id, Order>, rid: Id, state: ReservationState) {
    && after.Keys == before.Keys
    && forall o :: o in before ==>
         after[o] == if before[o].reservationId == rid then before[o].(state := Follows(state)) else before[o]
  }

  function ShiftedBack(inventory: map<Id, Stock>, p: Id, q: int): map<Id, Stock>
    requires p in inventory
  {
    inventory[p := inventory[p].(available := inventory[p].available + q, reserved := inventory[p].reserved - q)]
  }

  function Refilled(sales: map<Id, Sale>, s: Id, q: int): map<Id, Sale>
    requires s in sales
  {
    sales[s := sales[s].(remaining := sales[s].remaining + q)]
  }

  /** The level set, and the expected total around the units reserved and sold. */
  function Restocked(inventory: map<Id, Stock>, p: Id, n: int): map<Id, Stock>
    requires p in inventory
  {
    var t := inventory[p];
    inventory[p := t.(available := n, expectedTotal := n + t.reserved + t.sold)]
  }

  lemma WrittenFollow(orders: map<Id, Order>, rid: Id, state: ReservationState)
    ensures Follow(orders, WithOrders(orders, rid, Follows(state)), rid, state)
  {
  }

  lemma PutTwice<K, V>(m: map<K, V>, k: K, a: V, b: V)
    ensures m[k := a][k := b] == m[k := b]
  {
  }

  // ---------------------------------------------------------------- catalog, as functions

  predicate SkuTaken(db: Db, sku: string) {
    exists p :: p in db.products && db.products[p].sku == sku
  }

  function MergeProduct(p: Product, e: ProductEdit): Product {
    p.(price := if e.price.Some? then e.price.value else p.price,
       active := if e.active.Some? then e.active.value else p.active)
  }

  class Store {
    var products: map<Id, Product>
    var inventory: map<Id, Stock>
    var sales: map<Id, Sale>
    var reservations: map<Id, Reservation>
    var orders: map<Id, Order>
    var payments: map<Id, Payment>
    var keys: map<Id, KeyRow>
    var journal: seq<Entry>

    function Snapshot(): Db
      reads this
    {
      Db(products, inventory, sales, reservations, orders, payments, keys, journal)
    }

    ghost predicate Valid()
      reads this
    {
      Inv(Snapshot())
    }

    constructor ()
      ensures Valid() && Snapshot() == EMPTY
    {
      products, inventory, sales, reservations := map[], map[], map[], map[];
      orders, payments, keys, journal := map[], map[], map[], [];
      new;
      EmptyHasInv();
    }

    method Rollback(saved: Db)
      modifies this
      ensures Snapshot() == saved
    {
      products, inventory, sales, reservations := saved.products, saved.inventory, saved.sales, saved.reservations;
      orders, payments, keys, journal := saved.orders, saved.payments, saved.keys, saved.journal;
    }

    /** SELECT COALESCE(sum(quantity),0) FROM reservations WHERE f. */
    method SumQuantity(f: Filter) returns (n: int)
      ensures n == Total(f, reservations)
    {
      n := 0;
      var rest := reservations;
      while rest != map[]
        invariant n + Total(f, rest) == Total(f, reservations)
        decreases rest.Keys
      {
        var k :| k in rest;
        TotalSplit(f, rest, k);
        n := n + Weight(f, rest[k]);
        rest := rest - {k};
      }
    }

    /** finishReservationError: the refusal is written to the claimed key and committed. */
    method FinishError(key: Id, refusal: Refusal) returns (reply: Reply)
      requires key in keys
      modifies this`keys
      ensures keys == old(keys)[key := old(keys)[key].(response := Some(Declined(refusal)))]
      ensures reply == Answered(Refused(refusal))
    {
      keys := keys[key := keys[key].(response := Some(Declined(refusal)))];
      return Answered(Refused(refusal));
    }

    /** The reads of Reserve: sale and product, then the user's active quantity. */
    method ScreenRequest(c: Call, now: int) returns (refusal: Option<Refusal>)
      requires Request(c)
      ensures refusal == Screen(Snapshot(), c, now)
    {
      if c.saleId !in sales || sales[c.saleId].productId !in products {
        return Some(SaleNotFound);
      }
      var sale := sales[c.saleId];
      if sale.state != Active || now < sale.startsAt || now >= sale.endsAt {
        return Some(SaleNotActive);
      }
      if !products[sale.productId].active {
        return Some(ProductInactive);
      }
      var existing := SumQuantity(ActiveBy(c.saleId, c.userId));
      if existing + c.quantity > sale.maxPerUser {
        return Some(PurchaseLimitExceeded);
      }
      return None;
    }

    /** Reservation, order, event and stored answer. The order's CHECK on its amount can fail. */
    method InsertRows(w: Opening) returns (ok: bool)
      requires w.key in keys
      modifies this
      ensures ok == (w.amount >= 0)
      ensures ok ==>
                && reservations == old(reservations)[w.rid := ReservationOf(w)]
                && orders == old(orders)[w.oid := OrderOf(w)]
                && journal == old(journal) + [Opened(w.rid, w.productId, w.quantity)]
                && keys == old(keys)[w.key := old(keys)[w.key].(response := Some(Accepted(ReceiptOf(w))))]
      ensures products == old(products) && inventory == old(inventory) && sales == old(sales) &&
              payments == old(payments)
    {
      reservations := reservations[w.rid :=
        Reservation(w.saleId, w.productId, w.userId, w.quantity, Pending, w.expiresAt)];
      if w.amount < 0 {
        return false;
      }
      orders := orders[w.oid :=
        Order(w.rid, w.saleId, w.productId, w.userId, w.quantity, w.amount, w.currency, Follows(Pending))];
      journal := journal + [Opened(w.rid, w.productId, w.quantity)];
      keys := keys[w.key := keys[w.key].(response := Some(Accepted(ReceiptOf(w))))];
      return true;
    }

    /** The writes of Reserve after the claim; `begun` are the tables at BEGIN. */
    method Take(c: Call, v: Env, begun: Db) returns (reply: Reply)
      requires Request(c) && c.saleId in sales && sales[c.saleId].productId in products &&
               sales[c.saleId].state == Active
      requires Snapshot() == begun.(keys := begun.keys[c.key := RowOf(c, v)])
      modifies this
      ensures (Snapshot(), reply) == TakeUnits(begun, c, v)
    {
      var key, sale, row, w := c.key, sales[c.saleId], RowOf(c, v), OpeningOf(begun, c, v);
      assert row == ClaimOf(w) && w.key == key && w.productId == sale.productId;
      hide RowOf, OpeningOf, ReservationText;
      PutTwice(begun.keys, key, row, row.(response := Some(Declined(AllocationSoldOut))));
      PutTwice(begun.keys, key, row, row.(response := Some(Declined(ProductSoldOut))));
      PutTwice(begun.keys, key, row, row.(response := Some(Accepted(ReceiptOf(w)))));
      if !(sale.state == Active && sale.remaining >= c.quantity) {
        reply := FinishError(key, AllocationSoldOut);
        return;
      }
      sales := sales[c.saleId := sale.(remaining := sale.remaining - c.quantity)];
      if !(sale.productId in inventory && inventory[sale.productId].available >= c.quantity) {
        journal := journal + [UnitsLost(c.saleId, c.quantity)];
        reply := FinishError(key, ProductSoldOut);
        return;
      }
      var t := inventory[sale.productId];
      inventory := inventory[sale.productId :=
        t.(available := t.available - c.quantity, reserved := t.reserved + c.quantity)];
      var ok := InsertRows(w);
      if !ok {
        Rollback(begun);
        return Internal;
      }
      return Answered(Created(ReceiptOf(w)));
    }

    /** Fresh ids and clocks come in with the call. */
    method Reserve(q: ReserveRequest, v: Env) returns (reply: Reply)
      requires Valid() && v.rid !in reservations && v.oid !in orders
      modifies this
      ensures Valid()
      ensures (Snapshot(), reply) == Operations.Reserve(old(Snapshot()), q, v)
    {
      hide Inv, Trim, TakeUnits;
      ReserveKeepsInv(Snapshot(), q, v);
      if Malformed(q) {
        return Invalid;
      }
      var c := CallOf(q);
      if c.key in keys {
        return Answered(ReplayAnswer(keys[c.key], c));
      }
      var begun := Snapshot();
      keys := keys[c.key := RowOf(c, v)];
      var refusal := ScreenRequest(c, v.now);
      if refusal.Some? {
        PutTwice(begun.keys, c.key, RowOf(c, v), RowOf(c, v).(response := Some(Declined(refusal.value))));
        reply := FinishError(c.key, refusal.value);
      } else {
        reply := Take(c, v, begun);
      }
    }

    /** Confirm and cancel are exactly one lifecycle edge. The targets paid and expired, which no HTTP
        handler passes, would change the state without the stock and break the ledger. */
    method TransitionReservation(id: Id, target: ReservationState) returns (reply: MoveReply)
      requires Valid()
      modifies this
      ensures reply == NoSuchReservation <==> id !in old(reservations)
      ensures reply == Changed <==>
                id in old(reservations) &&
                match old(reservations)[id].state
                case Pending => target == Confirmed || target == Cancelled || target == Expired
                case Confirmed => target == Paid
                case _ => false
      ensures reply != Changed ==> Snapshot() == old(Snapshot())
      ensures reply == Changed ==>
                var r := old(reservations)[id];
                && reservations == old(reservations)[id := r.(state := target)]
                && r.productId in old(inventory) && r.saleId in old(sales)
                && Follow(old(orders), orders, id, target)
                && inventory == (if target == Cancelled then ShiftedBack(old(inventory), r.productId, r.quantity)
                                 else old(inventory))
                && sales == (if target == Cancelled then Refilled(old(sales), r.saleId, r.quantity) else old(sales))
                && products == old(products) && payments == old(payments) && keys == old(keys)
                && journal == old(journal) + [Moved(id, r.state, target)]
      ensures reply == Changed && (target == Confirmed || target == Cancelled) ==>
                exists oid ::
                  CanMove(old(Snapshot()), id, oid, target) && Snapshot() == Move(old(Snapshot()), id, oid, target)
      ensures Valid() <==> reply != Changed || target == Confirmed || target == Cancelled
    {
      hide Inv, WithOrders, Follow;
      if id !in reservations {
        return NoSuchReservation;
      }
      var r := reservations[id];
      if !ValidTransition(r.state, target) {
        return InvalidTransition;
      }
      ghost var before := Snapshot();
      ghost var oid := PrepareMove(before, id, target);
      WrittenFollow(orders, id, target);
      Restate(id, r, target);
      if target == Confirmed || target == Cancelled {
        assert Snapshot() == Move(before, id, oid, target) by {
          assert before.inventory[r.productId := before.inventory[r.productId]] == before.inventory;
          assert before.sales[r.saleId := before.sales[r.saleId]] == before.sales;
        }
        MoveKeepsInv(before, id, oid, target);
      } else {
        StockLags(before, Snapshot(), id, target);
      }
      return Changed;
    }

    /** The writes of TransitionReservation. */
    method Restate(id: Id, r: Reservation, target: ReservationState)
      modifies this
      ensures reservations == old(reservations)[id := r.(state := target)]
      ensures orders == WithOrders(old(orders), id, Follows(target))
      ensures target != Cancelled ==> inventory == old(inventory) && sales == old(sales)
      ensures target == Cancelled && r.productId in old(inventory) &&
              old(inventory)[r.productId].reserved >= r.quantity ==>
                inventory == old(inventory)[r.productId :=
                  StockAfter(old(inventory)[r.productId], Cancelled, r.quantity)]
      ensures target == Cancelled && r.saleId in old(sales) ==>
                sales == old(sales)[r.saleId := SaleAfter(old(sales)[r.saleId], Cancelled, r.quantity)]
      ensures journal == old(journal) + [Moved(id, r.state, target)]
      ensures products == old(products) && payments == old(payments) && keys == old(keys)
    {
      hide WithOrders;
      reservations := reservations[id := r.(state := target)];
      orders := WithOrders(orders, id, Follows(target));
      if target == Cancelled {
        if r.productId in inventory && inventory[r.productId].reserved >= r.quantity {
          var t := inventory[r.productId];
          inventory := inventory[r.productId :=
            t.(available := t.available + r.quantity, reserved := t.reserved - r.quantity)];
        }
        if r.saleId in sales {
          sales := sales[r.saleId := sales[r.saleId].(remaining := sales[r.saleId].remaining + r.quantity)];
        }
      }
      journal := journal + [Moved(id, r.state, target)];
    }

    // -------------------------------------------------------------- ExpireBatch

    /** The candidates: pending, due, earliest first, at most `limit`. */
    method SelectDue(limit: nat, at: int) returns (batch: seq<Due>)
      requires Valid()
      ensures Selected(Snapshot(), batch, limit, at)
    {
      hide Inv, Gathered, Selected, DueOk;
      var left := DueIds(reservations, at);
      batch := [];
      NothingGathered(Snapshot(), at);
      while |batch| < limit && left != {}
        invariant Gathered(Snapshot(), batch, left, at) && |batch| <= limit
        decreases left
      {
        LeftIsDue(Snapshot(), batch, left, at);
        EarliestExists(reservations, left);
        var r :| r in left && forall x :: x in left ==> reservations[r].expiresAt <= reservations[x].expiresAt;
        DueHasOrder(Snapshot(), r, at);
        var o :| o in orders && orders[o].reservationId == r;
        GatherNext(Snapshot(), batch, left, at, Due(r, o, reservations[r]));
        batch, left := batch + [Due(r, o, reservations[r])], left - {r};
      }
      GatheredIsSelected(Snapshot(), batch, left, limit, at);
    }

    /** The UPDATE that marks the candidates. */
    method MarkExpired(ids: set<Id>)
      modifies this`reservations
      ensures reservations == MarkAll(old(reservations), ids)
    {
      reservations := MarkAll(reservations, ids);
    }

    method ExpireBatch(batchSize: int, at: int) returns (result: Option<ExpirationResult>, ghost batch: seq<Due>)
      requires Valid()
      modifies this
      ensures Valid()
      ensures !(1 <= batchSize <= 1000) ==> result == None && Snapshot() == old(Snapshot())
      ensures 1 <= batchSize <= 1000 ==>
                && Selected(old(Snapshot()), batch, batchSize, at)
                && Snapshot() == ExpireAll(old(Snapshot()), batch)
                && result == Some(ExpirationResult(|batch|, |batch|, |batch|)) && |IdsOf(batch)| == |batch|
                && TakesDueRows(old(reservations), reservations, IdsOf(batch), batchSize, at)
                && GivenBack(old(Snapshot()), Snapshot(), IdsOf(batch))
    {
      hide Inv, Selected, Partly, ExpireAll, MarkAll, BatchOk, IdsOf, TakesDueRows, GivenBack, DueOk, Sum;
      batch := [];
      if batchSize <= 0 || batchSize > 1000 {
        return None, [];
      }
      ghost var before := Snapshot();
      var expired := SelectDue(batchSize, at);
      batch := expired;
      SelectedIsBatch(before, expired, batchSize, at);
      MarkExpired(IdsOf(expired));
      MarkedIsPartly(before, expired);
      RestoreRows(before, expired);
      WhollyIsExpireAll(before, expired);
      ExpireKeepsInv(before, expired);
      ColumnsOfBatch(before, expired, batchSize, at);
      return Some(ExpirationResult(|expired|, |expired|, |expired|)), expired;
    }

    /** The restoration loop over the rows just marked. */
    method RestoreRows(ghost before: Db, expired: seq<Due>)
      requires Inv(before) && BatchOk(before, expired) && Snapshot() == Partly(before, expired, 0)
      modifies this
      ensures Snapshot() == Partly(before, expired, |expired|)
    {
      hide Inv, Partly, RestoreGuard, Restored, BatchOk;
      var i := 0;
      while i < |expired|
        invariant 0 <= i <= |expired| && Snapshot() == Partly(before, expired, i)
      {
        NextIsRestored(before, expired, i);
        NextOrder(before, expired, i);
        var ok := RestoreRow(expired[i]);
        if !ok {
          assert false;  // "inventory invariant prevented restoration": never happens
        }
        i := i + 1;
      }
    }

    /** The body of the restoration loop. */
    method RestoreRow(d: Due) returns (ok: bool)
      requires d.oid in orders &&
               WithOrders(orders, d.rid, Follows(Expired)) == Rewritten(orders, d.oid, Follows(Expired))
      modifies this
      ensures ok == RestoreGuard(old(Snapshot()), d)
      ensures Snapshot() == if ok then Restored(old(Snapshot()), d) else old(Snapshot())
    {
      hide WithOrders;
      if !(d.row.productId in inventory && inventory[d.row.productId].reserved >= d.row.quantity) {
        return false;
      }
      var t := inventory[d.row.productId];
      inventory := inventory[d.row.productId :=
        t.(available := t.available + d.row.quantity, reserved := t.reserved - d.row.quantity)];
      if d.row.saleId in sales {
        sales := sales[d.row.saleId :=
          sales[d.row.saleId].(remaining := sales[d.row.saleId].remaining + d.row.quantity)];
      }
      orders := WithOrders(orders, d.rid, Follows(Expired));
      journal := journal + [Moved(d.rid, Pending, Expired)];
      return true;
    }

    // -------------------------------------------------------------- SimulatePayment

    method SimulatePayment(q: PayRequest, pid: Id) returns (reply: PayReply)
      requires Valid()
      modifies this
      ensures Valid()
      ensures (Snapshot(), reply) == Operations.SimulatePayment(old(Snapshot()), q, pid)
      ensures !reply.Settled? ==> Snapshot() == old(Snapshot())
    {
      var oid, key, outcome := Id(Trim(q.orderText)), Id(Trim(q.keyText)), ParseOutcome(q.outcomeText);
      hide Inv, Trim, ParseOutcome, PaymentText, Move, CanMove;
      ghost var before := Snapshot();
      PaymentsKeepInv(before, q, pid);
      if oid.text == "" || key.text == "" || outcome.None? {
        return PayInvalid;
      }
      if key in payments {
        if payments[key].fingerprint != PaymentText(oid, outcome.value) {
          return PayConflict;
        }
        return AlreadySettled(payments[key]);
      }
      if oid !in orders {
        return PayInternal;
      }
      OrderHasReservation(before, oid);
      var begun := Snapshot();
      var row := PaymentRow(pid, oid, outcome.value);
      payments := payments[key := row.(status := Waiting)];
      var rid := orders[oid].reservationId;
      var r := reservations[rid];
      if outcome.value == Successful && r.state != Confirmed {
        Rollback(begun);
        return NotPayable;
      }
      if outcome.value == Failed && r.state != Confirmed && r.state != Pending {
        Rollback(begun);
        return NotPayable;
      }
      Settle(before, key, pid, oid, rid, r, outcome.value);
      return Settled(row);
    }

    /** The writes of an accepted callback after its payment row was inserted. */
    method Settle(ghost before: Db, key: Id, pid: Id, oid: Id, rid: Id, r: Reservation, outcome: Outcome)
      requires Inv(before) && CanPay(before, key, oid, outcome)
      requires rid == before.orders[oid].reservationId && r == before.reservations[rid]
      requires Snapshot() == Inserted(before, key, PaymentRow(pid, oid, outcome))
      modifies this
      ensures Payable(before, key, oid, outcome)
      ensures Snapshot() == Pay(before, key, pid, oid, outcome)
    {
      hide Inv, Pay, CanMove, Move, PaidRows, PaymentText;
      PayPrepared(before, key, oid, outcome);
      match outcome {
        case Successful =>
          var ok := SettlePaid(oid, rid, r);
          if !ok {
            assert false;  // "paid inventory invariant prevented reconciliation": never happens
          }
        case Failed =>
          orders := orders[oid := orders[oid].(state := PaymentFailed)];
        case Delayed =>
      }
      payments := payments[key := PaymentRow(pid, oid, outcome)];
      journal := journal + [PaymentNoted(pid, StatusOf(outcome))];
      SettledIsPay(before, key, pid, oid, outcome);
    }

    /** The successful case: stock from reserved to sold, both rows paid, one event. */
    method SettlePaid(oid: Id, rid: Id, r: Reservation) returns (ok: bool)
      requires oid in orders
      modifies this
      ensures ok == SellGuard(old(Snapshot()), r)
      ensures Snapshot() == if ok then PaidRows(old(Snapshot()), oid, rid, r) else old(Snapshot())
    {
      if !(r.productId in inventory && inventory[r.productId].reserved >= r.quantity) {
        return false;
      }
      var t := inventory[r.productId];
      inventory := inventory[r.productId := t.(reserved := t.reserved - r.quantity, sold := t.sold + r.quantity)];
      reservations := reservations[rid := r.(state := Paid)];
      orders := orders[oid := orders[oid].(state := Follows(Paid))];
      journal := journal + [Moved(rid, Confirmed, Paid)];
      return true;
    }

    // -------------------------------------------------------------- catalog

    method CreateProduct(id: Id, p: ProductInput) returns (reply: CatalogReply)
      requires Valid() && id !in products
      modifies this
      ensures Valid()
      ensures reply != Done ==> Snapshot() == old(Snapshot())
      ensures reply == CatalogInvalid <==>
                Trim(p.sku) == "" || Trim(p.name) == "" || |Trim(p.currency)| != 3 || p.price < 0 || p.inventory < 0
      ensures reply == CatalogInternal || reply == Done <==> reply != CatalogInvalid
      ensures reply == Done ==>
                && |Trim(p.name)| <= 200 && p.inventory <= INT4_MAX
                && forall o :: o in old(products) ==> old(products)[o].sku != Trim(p.sku)
      ensures reply == CatalogInternal ==>
                |Trim(p.name)| > 200 || p.inventory > INT4_MAX
                || exists o :: o in old(products) && old(products)[o].sku == Trim(p.sku)
      ensures reply == Done ==>
                var product := Product(Trim(p.sku), p.price, Upper(Trim(p.currency)), p.active);
                Snapshot() == old(Snapshot()).(
                  products := old(products)[id := product],
                  inventory := old(inventory)[id := Stock(p.inventory, 0, 0, p.inventory)],
                  journal := old(journal) + [StockSet(id, p.inventory)])
    {
      var sku, name, currency := Trim(p.sku), Trim(p.name), Upper(Trim(p.currency));
      hide Inv, Trim;
      if sku == "" || name == "" || |currency| != 3 || p.price < 0 || p.inventory < 0 {
        return CatalogInvalid;
      }
      if SkuTaken(Snapshot(), sku) || |name| > 200 {
        return CatalogInternal;
      }
      var begun := Snapshot();
      products := products[id := Product(sku, p.price, currency, p.active)];
      if p.inventory > INT4_MAX {
        Rollback(begun);
        return CatalogInternal;
      }
      SameKeys(begun);
      AddProductKeepsInv(begun, id, Product(sku, p.price, currency, p.active), p.inventory);
      inventory := inventory[id := Stock(p.inventory, 0, 0, p.inventory)];
      journal := journal + [StockSet(id, p.inventory)];
      return Done;
    }

    method UpdateProduct(id: Id, e: ProductEdit) returns (reply: CatalogReply)
      requires Valid()
      modifies this
      ensures Valid()
      ensures reply != Done ==> Snapshot() == old(Snapshot())
      ensures reply == CatalogInvalid <==>
                (e.price.Some? && e.price.value < 0) || (e.inventory.Some? && e.inventory.value < 0)
      ensures reply == NotFound <==> reply != CatalogInvalid && id !in old(products)
      ensures reply == CatalogInternal <==>
                reply != CatalogInvalid && reply != NotFound &&
                ((e.name.Some? && !(1 <= |e.name.value| <= 200)) ||
                 (e.inventory.Some? && id in old(inventory) &&
                  e.inventory.value + old(inventory)[id].reserved + old(inventory)[id].sold > INT4_MAX))
      ensures reply == Done ==>
                && id in products && id in old(products) && id in old(inventory)
                && products == old(products)[id := products[id]]
                && products[id].sku == old(products)[id].sku && products[id].currency == old(products)[id].currency
                && products[id].price == (if e.price.Some? then e.price.value else old(products)[id].price)
                && products[id].active == (if e.active.Some? then e.active.value else old(products)[id].active)
                && inventory == (match e.inventory
                                 case None => old(inventory)
                                 case Some(n) => Restocked(old(inventory), id, n))
                && journal == (match e.inventory
                               case None => old(journal)
                               case Some(n) => old(journal) + [StockSet(id, n)])
                && sales == old(sales) && reservations == old(reservations) && orders == old(orders)
                && payments == old(payments) && keys == old(keys)
    {
      hide Inv;
      if (e.price.Some? && e.price.value < 0) || (e.inventory.Some? && e.inventory.value < 0) {
        return CatalogInvalid;
      }
      if id !in products {
        return NotFound;
      }
      if e.name.Some? && !(1 <= |e.name.value| <= 200) {
        return CatalogInternal;
      }
      var begun := Snapshot();
      SameKeys(begun);
      products := products[id := MergeProduct(products[id], e)];
      if e.inventory.Some? {
        var t := inventory[id];
        if e.inventory.value + t.reserved + t.sold > INT4_MAX {
          Rollback(begun);
          return CatalogInternal;
        }
        EditProductKeepsInv(begun, id, MergeProduct(begun.products[id], e), e.inventory);
        inventory := inventory[id :=
          t.(available := e.inventory.value, expectedTotal := e.inventory.value + t.reserved + t.sold)];
        journal := journal + [StockSet(id, e.inventory.value)];
      } else {
        EditProductKeepsInv(begun, id, MergeProduct(begun.products[id], e), None);
      }
      return Done;
    }

    method CreateSale(id: Id, s: SaleInput, now: int) returns (reply: CatalogReply)
      requires Valid() && id !in sales
      modifies this
      ensures Valid()
      ensures reply != Done ==> Snapshot() == old(Snapshot())
      ensures reply == CatalogInvalid <==>
                s.productId.text == "" || s.endsAt <= s.startsAt || s.allocation <= 0 || s.maxPerUser <= 0
      ensures reply == CatalogInternal <==>
                reply != CatalogInvalid &&
                (s.productId !in old(products) || s.allocation > INT4_MAX || s.maxPerUser > INT4_MAX)
      ensures reply != NotFound
      ensures reply == Done ==>
                var state := if s.startsAt > now then Scheduled else Draft;
                var row := Sale(s.productId, s.startsAt, s.endsAt, s.allocation, s.allocation, s.maxPerUser, state);
                Snapshot() == old(Snapshot()).(sales := old(sales)[id := row])
    {
      hide Inv;
      if s.productId.text == "" || s.endsAt <= s.startsAt || s.allocation <= 0 || s.maxPerUser <= 0 {
        return CatalogInvalid;
      }
      var state := Draft;
      if s.startsAt > now {
        state := Scheduled;
      }
      if s.productId !in products || s.allocation > INT4_MAX || s.maxPerUser > INT4_MAX {
        return CatalogInternal;
      }
      SameKeys(Snapshot());
      var row := Sale(s.productId, s.startsAt, s.endsAt, s.allocation, s.allocation, s.maxPerUser, state);
      AddSaleKeepsInv(Snapshot(), id, row);
      sales := sales[id := row];
      return Done;
    }

    method ChangeSaleState(id: Id, state: SaleState) returns (reply: CatalogReply)
      requires Valid()
      modifies this
      ensures Valid()
      ensures reply != Done ==> Snapshot() == old(Snapshot())
      ensures reply == CatalogInvalid <==> state == Draft || state == Scheduled
      ensures reply == NotFound <==> reply != CatalogInvalid && id !in old(sales)
      ensures reply != CatalogInternal
      ensures reply == Done ==>
                && id in old(sales)
                && Snapshot() == old(Snapshot()).(sales := old(sales)[id := old(sales)[id].(state := state)])
    {
      hide Inv;
      if state != Active && state != Ended && state != CalledOff {
        return CatalogInvalid;
      }
      if id !in sales {
        return NotFound;
      }
      SetSaleStateKeepsInv(Snapshot(), id, state);
      sales := sales[id := sales[id].(state := state)];
      return Done;
    }

    /** TRUNCATE of every table, then one product, its stock and one active sale. */
    method ResetDemo(units: int, pid: Id, sid: Id, now: int) returns (reply: CatalogReply)
      requires Valid()
      modifies this
      ensures Valid()
      ensures !(1 <= units <= 100000) ==> reply == CatalogInvalid && Snapshot() == old(Snapshot())
      ensures 1 <= units <= 100000 ==> reply == Done && Snapshot() == DemoTables(pid, sid, units, now)
      ensures reply == Done ==>
                && products == map[pid := Product("FLASH-100", 9900, "THB", true)]
                && inventory == map[pid := Stock(units, 0, 0, units)]
                && sales == map[sid := Sale(pid, now - 60, now + 365 * 86400, units, units, 1, Active)]
                && reservations == map[] && orders == map[] && payments == map[] && keys == map[]
    {
      hide Inv;
      if units <= 0 || units > 100000 {
        return CatalogInvalid;
      }
      DemoTablesHaveInv(pid, sid, units, now);
      Rollback(EMPTY);
      products := products[pid := Product("FLASH-100", 9900, "THB", true)];
      inventory := inventory[pid := Stock(units, 0, 0, units)];
      journal := journal + [StockSet(pid, units)];
      sales := sales[sid := Sale(pid, now - MINUTE, now + YEAR, units, units, 1, Active)];
      assert Snapshot() == DemoTables(pid, sid, units, now);
      return Done;
    }

    // -------------------------------------------------------------- CheckInvariants

    /** The HAVING clause of the limit query, group by group. */
    method CountExcessive() returns (n: nat)
      ensures n == |Excessive(Snapshot())|
    {
      hide Total;
      var groups := Groups(Snapshot());
      ghost var counted: set<(Id, Id)> := {};
      n := 0;
      while groups != {}
        invariant groups <= Groups(Snapshot())
        invariant counted == (set g | g in Groups(Snapshot()) - groups && OverLimit(Snapshot(), g)) && n == |counted|
        decreases groups
      {
        var g :| g in groups;
        var sum := SumQuantity(ActiveBy(g.0, g.1));
        if sum > sales[g.0].maxPerUser {
          n := n + 1;
          counted := counted + {g};
        }
        groups := groups - {g};
      }
      assert counted == Excessive(Snapshot());
    }

    /** The seven counts, then the loop that appends the rows with a positive one. */
    method CheckInvariants() returns (violations: seq<Violation>)
      ensures violations == Violations(Snapshot())
      ensures Valid() ==> violations == []
    {
      hide Inv, Excessive, Unreconciled, NegativeStock, NegativeSales, Mismatched, Orphans, PaidExpired;
      if Valid() {
        InvIsClean(Snapshot());
      }
      var limit := CountExcessive();
      var db := Snapshot();
      var counts := [limit, |Unreconciled(db)|, |NegativeStock(db)|, |NegativeSales(db)|, |Mismatched(db)|,
                     |Orphans(db)|, |PaidExpired(db)|];
      violations := [];
      var i := 0;
      while i < |CHECKS|
        invariant 0 <= i <= |CHECKS| && violations == Report(Snapshot(), i)
      {
        assert counts[i] == Count(db, CHECKS[i]);
        if counts[i] > 0 {
          violations := violations + [Violation(CHECKS[i], counts[i])];
        }
        i := i + 1;
      }
    }
  }

  // ---------------------------------------------------------------- facts the methods use

  lemma ColumnsOfBatch(db: Db, batch: seq<Due>, limit: nat, at: int)
    requires Inv(db) && Selected(db, batch, limit, at)
    ensures TakesDueRows(db.reservations, ExpireAll(db, batch).reservations, IdsOf(batch), limit, at)
    ensures GivenBack(db, ExpireAll(db, batch), IdsOf(batch)) && |IdsOf(batch)| == |batch|
  {
    hide RefsOk, LedgerOk, SalesOk, LimitOk, OrdersOk, KeysOk, PaymentsOk, JournalOk, ExpireAll, IdsOf;
    hide TakesDueRows, GivenBack;
    SelectedTakesDue(db, batch, limit, at);
    BatchGivesBack(db, batch);
  }

  lemma SelectedIsBatch(db: Db, batch: seq<Due>, limit: nat, at: int)
    requires Selected(db, batch, limit, at)
    ensures BatchOk(db, batch)
  {
  }

  lemma NextOrder(db: Db, batch: seq<Due>, i: nat)
    requires Inv(db) && BatchOk(db, batch) && i < |batch|
    ensures var (orders, d) := (Partly(db, batch, i).orders, batch[i]);
            d.oid in orders && WithOrders(orders, d.rid, Follows(Expired)) == Rewritten(orders, d.oid, Follows(Expired))
  {
    hide RefsOk, LedgerOk, SalesOk, LimitOk, OrdersOk, KeysOk, PaymentsOk, JournalOk, WithOrders, ExpireAll;
    var m := ExpireAll(db, batch[..i]);
    NextDueIsCovered(db, batch, i);
    ExpireKeepsInv(db, batch[..i]);
    OneOrderIsWritten(m.orders, m.reservations, batch[i].rid, batch[i].oid, Follows(Expired));
  }

  /** A batch under construction: the earliest due rows so far, the rest still `left`. */
  ghost predicate Gathered(db: Db, batch: seq<Due>, left: set<Id>, at: int) {
    && BatchOk(db, batch)
    && IdsOf(batch) <= DueIds(db.reservations, at) && left == DueIds(db.reservations, at) - IdsOf(batch)
    && Earliest(db.reservations, batch, left)
  }

  /** ORDER BY expires_at: the batch in order, then everything left. */
  ghost predicate Earliest(m: map<Id, Reservation>, batch: seq<Due>, left: set<Id>)
    requires left <= m.Keys
  {
    && (forall i, j :: 0 <= i < j < |batch| ==> batch[i].row.expiresAt <= batch[j].row.expiresAt)
    && (forall i, r :: 0 <= i < |batch| && r in left ==> batch[i].row.expiresAt <= m[r].expiresAt)
  }

  lemma EarliestNext(m: map<Id, Reservation>, batch: seq<Due>, left: set<Id>, d: Due)
    requires left <= m.Keys && Earliest(m, batch, left) && d.rid in left && d.row == m[d.rid]
    requires forall x :: x in left ==> d.row.expiresAt <= m[x].expiresAt
    ensures Earliest(m, batch + [d], left - {d.rid})
  {
  }

  lemma NothingGathered(db: Db, at: int)
    ensures Gathered(db, [], DueIds(db.reservations, at), at)
  {
  }

  lemma LeftIsDue(db: Db, batch: seq<Due>, left: set<Id>, at: int)
    requires Gathered(db, batch, left, at)
    ensures left <= DueIds(db.reservations, at) && left <= db.reservations.Keys
  {
  }

  lemma GatherNext(db: Db, batch: seq<Due>, left: set<Id>, at: int, d: Due)
    requires Inv(db) && Gathered(db, batch, left, at) && d.rid in left && OrderFor(db.orders, d.oid, d.rid)
    requires d.row == db.reservations[d.rid] && forall x :: x in left ==>
             d.row.expiresAt <= db.reservations[x].expiresAt
    ensures Gathered(db, batch + [d], left - {d.rid}, at)
  {
    hide Inv, DueOk, DueIds, IdsOf, BatchOk, Earliest;
    LeftIsDue(db, batch, left, at);
    DueIsOk(db, d, at);
    IdsNext(batch, d);
    BatchNext(db, batch, d);
    EarliestNext(db.reservations, batch, left, d);
    assert left - {d.rid} == DueIds(db.reservations, at) - (IdsOf(batch) + {d.rid});
  }

  lemma BatchNext(db: Db, batch: seq<Due>, d: Due)
    requires BatchOk(db, batch) && DueOk(db, d) && d.rid !in IdsOf(batch)
    ensures BatchOk(db, batch + [d])
  {
    hide DueOk;
    forall i | 0 <= i < |batch| ensures batch[i].rid != d.rid {
      assert batch[i] in batch;
    }
  }

  lemma GatheredIsSelected(db: Db, batch: seq<Due>, left: set<Id>, limit: nat, at: int)
    requires Gathered(db, batch, left, at) && |batch| <= limit && (|batch| == limit || left == {})
    ensures Selected(db, batch, limit, at)
  {
    hide DueOk, DueIds;
    BatchIsDistinct(batch);
    DifferenceSize(DueIds(db.reservations, at), IdsOf(batch));
  }

  lemma {:induction false} EarliestExists(m: map<Id, Reservation>, ids: set<Id>)
    requires ids != {} && ids <= m.Keys
    ensures exists r :: r in ids && forall x :: x in ids ==> m[r].expiresAt <= m[x].expiresAt
  {
    var r :| r in ids;
    var rest := ids - {r};
    if rest == {} {
      assert ids == {r};
    } else {
      EarliestExists(m, rest);
      var e :| e in rest && forall x :: x in rest ==> m[e].expiresAt <= m[x].expiresAt;
      var least := if m[r].expiresAt <= m[e].expiresAt then r else e;
      assert forall x :: x in ids ==> x == r || x in rest;
      assert least in ids && forall x :: x in ids ==> m[least].expiresAt <= m[x].expiresAt;
    }
  }

  lemma DueHasOrder(db: Db, r: Id, at: int)
    requires Inv(db) && r in DueIds(db.reservations, at)
    ensures exists o :: o in db.orders && db.orders[o].reservationId == r
  {
    hide RefsOk, LedgerOk, SalesOk, LimitOk, KeysOk, PaymentsOk, JournalOk;
    var o :| OrderFor(db.orders, o, r);
  }

  lemma DueIsOk(db: Db, d: Due, at: int)
    requires Inv(db) && d.rid in DueIds(db.reservations, at) && OrderFor(db.orders, d.oid, d.rid) &&
             d.row == db.reservations[d.rid]
    ensures DueOk(db, d)
  {
    hide LedgerOk, SalesOk, LimitOk, OrdersOk, KeysOk, PaymentsOk, JournalOk;
    assert Refers(d.row, db.sales) && SaleRefers(db.sales[d.row.saleId], db.inventory);
  }

  lemma OrderHasReservation(db: Db, oid: Id)
    requires Inv(db) && oid in db.orders
    ensures db.orders[oid].reservationId in db.reservations
    ensures forall key :: CanPay(db, key, oid, Successful) ==> CanMove(db, db.orders[oid].reservationId, oid, Paid)
  {
    hide LedgerOk, SalesOk, LimitOk, KeysOk, PaymentsOk, JournalOk;
    assert OrderRefers(db.orders[oid], db.reservations);
    forall key | CanPay(db, key, oid, Successful) ensures CanMove(db, db.orders[oid].reservationId, oid, Paid) {
      CanPayMoves(db, key, oid);
    }
  }

  lemma PayPrepared(db: Db, key: Id, oid: Id, outcome: Outcome)
    requires Inv(db) && CanPay(db, key, oid, outcome)
    ensures Payable(db, key, oid, outcome)
  {
    hide RefsOk, LedgerOk, SalesOk, LimitOk, OrdersOk, KeysOk, PaymentsOk, JournalOk;
    if outcome == Successful {
      CanPayMoves(db, key, oid);
      GuardNeverMisses(db, db.orders[oid].reservationId);
    }
  }

  /** A reservation that leaves pending or confirmed while the counters stay put. */
  lemma StockLags(db: Db, d: Db, rid: Id, to: ReservationState)
    requires Inv(db) && rid in db.reservations && (to == Paid || to == Expired)
    requires ValidTransition(db.reservations[rid].state, to) && d.inventory == db.inventory
    requires d.reservations == db.reservations[rid := db.reservations[rid].(state := to)]
    ensures !Inv(d)
  {
    hide SalesOk, LimitOk, OrdersOk, KeysOk, PaymentsOk, JournalOk;
    var r := db.reservations[rid];
    assert Refers(r, db.sales) && SaleRefers(db.sales[r.saleId], db.inventory);
    var t := db.inventory[r.productId];
    TotalPut(Held(r.productId), db.reservations, rid, r.(state := to));
    assert StockOk(r.productId, t, db.reservations);
    assert !StockOk(r.productId, d.inventory[r.productId], d.reservations);
  }

  lemma SameKeys(db: Db)
    requires Inv(db)
    ensures db.products.Keys == db.inventory.Keys
    ensures forall p :: p in db.products <==> p in db.inventory
  {
    hide LedgerOk, SalesOk, LimitOk, OrdersOk, KeysOk, PaymentsOk, JournalOk;
    assert forall p :: p in db.products <==> p in db.products.Keys;
  }

  lemma OrderOfReservation(orders: map<Id, Order>, reservations: map<Id, Reservation>, rid: Id) returns (oid: Id)
    requires OrdersOk(orders, reservations) && rid in reservations
    ensures OrderFor(orders, oid, rid)
  {
    oid :| OrderFor(orders, oid, rid);
  }

  /** Before a lifecycle edge: its order, and the guard on `reserved`. */
  lemma PrepareMove(db: Db, rid: Id, to: ReservationState) returns (oid: Id)
    requires Inv(db) && rid in db.reservations && ValidTransition(db.reservations[rid].state, to)
    ensures CanMove(db, rid, oid, to)
    ensures WithOrders(db.orders, rid, Follows(to)) == Rewritten(db.orders, oid, Follows(to))
    ensures var r := db.reservations[rid]; db.inventory[r.productId].reserved >= r.quantity
  {
    hide WithOrders, LedgerOk, SalesOk, LimitOk, OrdersOk, KeysOk, PaymentsOk, JournalOk;
    oid := OrderOfReservation(db.orders, db.reservations, rid);
    OneOrderIsWritten(db.orders, db.reservations, rid, oid, Follows(to));
    GuardNeverMisses(db, rid);
    var r := db.reservations[rid];
    assert Refers(r, db.sales) && SaleRefers(db.sales[r.saleId], db.inventory);
  }
}
