/** What each request is answered and what it leaves in the tables, said column by column. */
module Answers {
  import opened Domain
  import opened Tables
  import opened Fingerprint
  import opened Ledger
  import opened Machine
  import opened Operations
  import opened Demo

  // ---------------------------------------------------------------- text and numbers

  predicate AllSpace(s: string) {
    forall i :: 0 <= i < |s| ==> IsSpace(s[i])
  }

  lemma {:induction false} TrimLeftSpec(s: string) returns (a: string)
    ensures s == a + TrimLeft(s) && AllSpace(a) && (TrimLeft(s) != "" ==> !IsSpace(TrimLeft(s)[0]))
  {
    if s != [] && IsSpace(s[0]) {
      var b := TrimLeftSpec(s[1..]);
      a := [s[0]] + b;
      assert s == [s[0]] + s[1..];
    } else {
      a := "";
    }
  }

  lemma {:induction false} TrimRightSpec(s: string) returns (b: string)
    ensures s == TrimRight(s) + b && AllSpace(b)
    ensures TrimRight(s) != "" ==> !IsSpace(TrimRight(s)[|TrimRight(s)| - 1]) && TrimRight(s)[0] == s[0]
  {
    if s != [] && IsSpace(s[|s| - 1]) {
      var c := TrimRightSpec(s[..|s| - 1]);
      b := c + [s[|s| - 1]];
      assert s == s[..|s| - 1] + [s[|s| - 1]];
    } else {
      b := "";
    }
  }

  lemma SpacesAreSpace(c: char)
    ensures IsSpace(c) <==> c in {' ', '\t', '\n', '\r', '\U{0B}', '\U{0C}', '\U{85}', '\U{A0}'}
  {
  }

  /** Trimming takes white space off both ends and leaves none there. */
  lemma TrimIsExact(s: string) returns (a: string, b: string)
    ensures s == a + Trim(s) + b && AllSpace(a) && AllSpace(b)
    ensures Trim(s) != "" ==> !IsSpace(Trim(s)[0]) && !IsSpace(Trim(s)[|Trim(s)| - 1])
  {
    a := TrimLeftSpec(s);
    b := TrimRightSpec(TrimLeft(s));
    assert s == a + (Trim(s) + b);
  }

  predicate Capital(c: char) {
    'A' <= c <= 'Z'
  }

  /** A text without capitals stays as it is, and a capital becomes its small letter. */
  lemma LowerIsExact(s: string)
    ensures |Lower(s)| == |s|
    ensures forall i :: 0 <= i < |s| ==>
              !Capital(Lower(s)[i]) && (!Capital(s[i]) ==> Lower(s)[i] == s[i])
              && (Capital(s[i]) ==> 'a' <= Lower(s)[i] <= 'z' && Lower(s)[i] - 'a' == s[i] - 'A')
  {
  }

  lemma UpperIsExact(s: string)
    ensures |Upper(s)| == |s| && Lower(Upper(s)) == Lower(s)
    ensures forall i :: 0 <= i < |s| ==>
              !('a' <= Upper(s)[i] <= 'z') && (!('a' <= s[i] <= 'z') ==> Upper(s)[i] == s[i])
  {
  }

  /** The 64-bit product: exact where it fits, otherwise off by a multiple of 2^64. */
  lemma WrapIsInt64(x: int)
    ensures -0x8000_0000_0000_0000 <= Wrap64(x) < 0x8000_0000_0000_0000
    ensures (Wrap64(x) - x) % 0x1_0000_0000_0000_0000 == 0
    ensures -0x8000_0000_0000_0000 <= x < 0x8000_0000_0000_0000 ==> Wrap64(x) == x
  {
  }

  // ---------------------------------------------------------------- Reserve

  /** How far a well-formed request with a new key gets, condition by condition in the order they are checked. */
  datatype Progress = Progress(
    found: bool, open: bool, active: bool, within: bool, covered: bool, stocked: bool, priced: bool)

  ghost function ProgressOf(db: Db, c: Call, now: int): Progress
    requires c.ReserveCall? && db.products.Keys == db.inventory.Keys
    requires forall s :: s in db.sales ==> db.sales[s].productId in db.inventory
  {
    var found := c.saleId in db.sales;
    if !found then Progress(false, false, false, false, false, false, false)
    else
      var sale := db.sales[c.saleId];
      assert sale.productId in db.products.Keys;
      var product, stock := db.products[sale.productId], db.inventory[sale.productId];
      var open := sale.state == Active && sale.startsAt <= now < sale.endsAt;
      var active := open && product.active;
      var held := Sum(Unreleased(db.reservations, c.saleId, c.userId), db.reservations);
      var within := active && held + c.quantity <= sale.maxPerUser;
      var covered := within && c.quantity <= sale.remaining;
      var stocked := covered && c.quantity <= stock.available;
      Progress(found, open, active, within, covered, stocked,
               stocked && Wrap64(product.price * c.quantity) >= 0)
  }

  lemma InvHasProducts(db: Db)
    requires Inv(db)
    ensures db.products.Keys == db.inventory.Keys
    ensures forall s :: s in db.sales ==> db.sales[s].productId in db.inventory
  {
    hide LedgerOk, SalesOk, LimitOk, OrdersOk, KeysOk, PaymentsOk, JournalOk;
    forall s | s in db.sales ensures db.sales[s].productId in db.inventory {
      assert SaleRefers(db.sales[s], db.inventory);
    }
  }

  /** Reserve's answer to a new key, exactly: each refusal is given when its condition is the first to
      fail, and a reservation is created when none fails. */
  lemma ReserveAnswersExactly(db: Db, c: Call, v: Env)
    requires Request(c) && c.key !in db.keys
    requires db.products.Keys == db.inventory.Keys
    requires forall s :: s in db.sales ==> db.sales[s].productId in db.inventory
    ensures var (reply, at) := (Handle(db, c, v).1, ProgressOf(db, c, v.now));
            && (reply == Answered(Refused(SaleNotFound)) <==> !at.found)
            && (reply == Answered(Refused(SaleNotActive)) <==> at.found && !at.open)
            && (reply == Answered(Refused(ProductInactive)) <==> at.open && !at.active)
            && (reply == Answered(Refused(PurchaseLimitExceeded)) <==> at.active && !at.within)
            && (reply == Answered(Refused(AllocationSoldOut)) <==> at.within && !at.covered)
            && (reply == Answered(Refused(ProductSoldOut)) <==> at.covered && !at.stocked)
            && (reply == Internal <==> at.stocked && !at.priced)
            && ((reply.Answered? && reply.answer.Created?) <==> at.priced)
  {
    hide Open, Refuse, RefuseAndLose, ReservationText;
    if c.saleId in db.sales {
      var sale := db.sales[c.saleId];
      assert sale.productId in db.products.Keys;
      ActiveIsUnreleased(db.reservations, c.saleId, c.userId);
    }
  }

  /** The tables after a reservation was created, and the receipt the caller gets. */
  lemma CreatedWrites(db: Db, c: Call, v: Env)
    requires Request(c) && c.key !in db.keys && Handle(db, c, v).1.Answered? && Handle(db, c, v).1.answer.Created?
    ensures c.saleId in db.sales && db.sales[c.saleId].productId in db.products
    ensures db.sales[c.saleId].productId in db.inventory
    ensures var (d, sale) := (Handle(db, c, v).0, db.sales[c.saleId]);
            var (p, q) := (sale.productId, c.quantity);
            var (product, stock) := (db.products[p], db.inventory[p]);
            var receipt := Receipt(v.rid, v.oid, c.saleId, p, c.userId, q, v.until);
            && Handle(db, c, v).1.answer == Created(receipt)
            && d.reservations == db.reservations[v.rid := Reservation(c.saleId, p, c.userId, q, Pending, v.until)]
            && d.orders == db.orders[v.oid := Order(v.rid, c.saleId, p, c.userId, q, Wrap64(product.price * q),
                                                    product.currency, Follows(Pending))]
            && d.sales == db.sales[c.saleId := sale.(remaining := sale.remaining - q)]
            && d.inventory == db.inventory[p :=
                 stock.(available := stock.available - q, reserved := stock.reserved + q)]
            && d.keys == db.keys[c.key := KeyRow(c.userId, ReservationText(c.saleId, c.userId, q),
                                                 Some(Accepted(receipt)), v.keyExpiresAt)]
            && d.products == db.products && d.payments == db.payments
            && d.journal == db.journal + [Opened(v.rid, p, q)]
  {
    hide ReservationText, Wrap64, Total;
  }

  /** The tables after a refusal: stored under the key, nothing else changed, except that a request that
      misses the stock keeps the sale's units. */
  predicate Declines(db: Db, c: Call, v: Env, d: Db, refusal: Refusal)
    requires Request(c)
  {
    && d.keys == db.keys[c.key := KeyRow(c.userId, ReservationText(c.saleId, c.userId, c.quantity),
                                         Some(Declined(refusal)), v.keyExpiresAt)]
    && d.products == db.products && d.inventory == db.inventory && d.reservations == db.reservations
    && d.orders == db.orders && d.payments == db.payments
    && if refusal != ProductSoldOut then d.sales == db.sales && d.journal == db.journal
       else
         && c.saleId in db.sales && d.journal == db.journal + [UnitsLost(c.saleId, c.quantity)]
         && d.sales == db.sales[c.saleId :=
              db.sales[c.saleId].(remaining := db.sales[c.saleId].remaining - c.quantity)]
  }

  lemma RefuseDeclines(db: Db, c: Call, v: Env, refusal: Refusal)
    requires Request(c) && refusal != ProductSoldOut
    ensures Declines(db, c, v, Refuse(db, c.key, RowOf(c, v), refusal), refusal)
  {
  }

  lemma LoseDeclines(db: Db, c: Call, v: Env)
    requires Request(c) && c.saleId in db.sales
    ensures Declines(db, c, v, RefuseAndLose(db, c.key, RowOf(c, v), c.saleId, c.quantity), ProductSoldOut)
  {
  }

  lemma RefusedWrites(db: Db, c: Call, v: Env)
    requires Request(c) && c.key !in db.keys && Handle(db, c, v).1.Answered? && Handle(db, c, v).1.answer.Refused?
    ensures Declines(db, c, v, Handle(db, c, v).0, Handle(db, c, v).1.answer.refusal)
  {
    hide RowOf, Open, Screen, OpeningOf, Declines, Refuse, RefuseAndLose;
    ScreenIsNotSoldOut(db, c, v.now);
    var refusal := Handle(db, c, v).1.answer.refusal;
    if refusal == ProductSoldOut {
      LoseDeclines(db, c, v);
    } else {
      RefuseDeclines(db, c, v, refusal);
    }
  }

  lemma ScreenIsNotSoldOut(db: Db, c: Call, now: int)
    requires Request(c)
    ensures Screen(db, c, now) != Some(ProductSoldOut) && Screen(db, c, now) != Some(AllocationSoldOut)
  {
    hide Total;
  }

  /** Which requests never get that far. */
  lemma InvalidExactly(db: Db, q: ReserveRequest, v: Env)
    ensures Reserve(db, q, v).1 == Invalid <==>
            q.saleId.text == "" || Trim(q.userText) == "" || |Trim(q.userText)| > 128
            || q.quantity < 1 || q.quantity > 100 || Trim(q.keyText) == "" || |Trim(q.keyText)| > 200
    ensures Reserve(db, q, v).1 == Invalid ==> Reserve(db, q, v).0 == db
    ensures Reserve(db, q, v).1 != Invalid ==>
              Request(CallOf(q)) && Reserve(db, q, v) == Handle(db, CallOf(q), v)
              && CallOf(q) == ReserveCall(q.saleId, Id(Trim(q.userText)), q.quantity, Id(Trim(q.keyText)))
  {
    hide Trim, Screen, Open, Refuse, RefuseAndLose;
  }

  // ---------------------------------------------------------------- SimulatePayment

  /** The outcome as the caller spelt it. */
  function Spelt(q: PayRequest): string {
    Lower(Trim(q.outcomeText))
  }

  predicate Complete(q: PayRequest) {
    Trim(q.orderText) != "" && Trim(q.keyText) != "" && Spelt(q) in {"successful", "failed", "delayed"}
  }

  /** Anything else is refused as invalid. */
  lemma PayInvalidExactly(db: Db, q: PayRequest, pid: Id)
    ensures SimulatePayment(db, q, pid).1 == PayInvalid <==> !Complete(q)
    ensures !SimulatePayment(db, q, pid).1.Settled? ==> SimulatePayment(db, q, pid).0 == db
  {
    hide Trim, Lower, Pay, CanPay, CanMove, PaymentText;
  }

  /** A known key is answered by the stored order and outcome alone. */
  lemma KnownKeyAnswers(db: Db, q: PayRequest, pid: Id)
    requires Complete(q) && Id(Trim(q.keyText)) in db.payments
    requires var y := db.payments[Id(Trim(q.keyText))]; PaymentRefers(y, db.orders)
    ensures var y := db.payments[Id(Trim(q.keyText))];
            SimulatePayment(db, q, pid) ==
            (db, if y.orderId.text == Trim(q.orderText) && OutcomeText(y.outcome) == Spelt(q) then AlreadySettled(y)
                 else PayConflict)
  {
    var y := db.payments[Id(Trim(q.keyText))];
    SpeltIsParsed(q);
    SamePaymentRequest(y.orderId, y.outcome, Id(Trim(q.orderText)), ParseOutcome(q.outcomeText).value);
    OutcomeTextInjective(y.outcome, ParseOutcome(q.outcomeText).value);
    hide Trim, Lower, PaymentText, ParseOutcome, Pay, CanPay, CanMove;
  }

  lemma SpeltIsParsed(q: PayRequest)
    requires Complete(q)
    ensures ParseOutcome(q.outcomeText).Some? && OutcomeText(ParseOutcome(q.outcomeText).value) == Spelt(q)
  {
    hide Trim, Lower;
  }

  /** A new key for an order of the table: its reservation's state decides. */
  ghost predicate Fresh(db: Db, q: PayRequest) {
    && Complete(q) && Id(Trim(q.keyText)) !in db.payments && Id(Trim(q.orderText)) in db.orders
    && db.orders[Id(Trim(q.orderText))].reservationId in db.reservations
    && var r := db.reservations[db.orders[Id(Trim(q.orderText))].reservationId];
       r.productId in db.inventory && r.saleId in db.sales
  }

  function RidOf(db: Db, q: PayRequest): Id
    requires Id(Trim(q.orderText)) in db.orders
  {
    db.orders[Id(Trim(q.orderText))].reservationId
  }

  lemma UnknownOrderFails(db: Db, q: PayRequest, pid: Id)
    requires Complete(q) && Id(Trim(q.keyText)) !in db.payments && Id(Trim(q.orderText)) !in db.orders
    ensures SimulatePayment(db, q, pid) == (db, PayInternal)
  {
    hide Trim, Lower, Pay, PaymentText;
  }

  /** Sending "successful": a confirmed reservation becomes paid and its units sold, any other is refused. */
  lemma SuccessfulPays(db: Db, q: PayRequest, pid: Id)
    requires Fresh(db, q) && Spelt(q) == "successful"
    ensures var (d, reply) := SimulatePayment(db, q, pid);
            var (oid, key, rid) := (Id(Trim(q.orderText)), Id(Trim(q.keyText)), RidOf(db, q));
            var r := db.reservations[rid];
            if r.state != Confirmed then reply == NotPayable && d == db
            else
              var (t, y) := (db.inventory[r.productId],
                             Payment(pid, oid, Successful, Succeeded, PaymentText(oid, Successful)));
              && reply == Settled(y) && d.payments == db.payments[key := y]
              && d.reservations == db.reservations[rid := r.(state := Paid)]
              && d.orders == db.orders[oid := db.orders[oid].(state := Follows(Paid))]
              && d.inventory == db.inventory[r.productId :=
                   t.(reserved := t.reserved - r.quantity, sold := t.sold + r.quantity)]
              && d.sales == db.sales && d.products == db.products && d.keys == db.keys
              && d.journal == db.journal + [Moved(rid, Confirmed, Paid), PaymentNoted(pid, Succeeded)]
  {
    hide Trim, Lower, PaymentText;
    var r := db.reservations[RidOf(db, q)];
    assert db.sales[r.saleId := db.sales[r.saleId]] == db.sales;
    assert db.journal + [Moved(RidOf(db, q), Confirmed, Paid)] + [PaymentNoted(pid, Succeeded)]
        == db.journal + [Moved(RidOf(db, q), Confirmed, Paid), PaymentNoted(pid, Succeeded)];
  }

  /** Sending "failed": the order of a pending or confirmed reservation is marked, nothing else moves. */
  lemma FailedMarksOrder(db: Db, q: PayRequest, pid: Id)
    requires Fresh(db, q) && Spelt(q) == "failed"
    ensures var (d, reply) := SimulatePayment(db, q, pid);
            var (oid, key) := (Id(Trim(q.orderText)), Id(Trim(q.keyText)));
            var state := db.reservations[RidOf(db, q)].state;
            if state != Confirmed && state != Pending then reply == NotPayable && d == db
            else
              var y := Payment(pid, oid, Failed, Rejected, PaymentText(oid, Failed));
              && reply == Settled(y)
              && d == db.(payments := db.payments[key := y],
                          orders := db.orders[oid := db.orders[oid].(state := PaymentFailed)],
                          journal := db.journal + [PaymentNoted(pid, Rejected)])
  {
    hide Trim, Lower, PaymentText;
  }

  /** Sending "delayed": only the waiting payment and its event are added, whatever the reservation's state. */
  lemma DelayedWaits(db: Db, q: PayRequest, pid: Id)
    requires Fresh(db, q) && Spelt(q) == "delayed"
    ensures var (oid, key) := (Id(Trim(q.orderText)), Id(Trim(q.keyText)));
            var y := Payment(pid, oid, Delayed, Waiting, PaymentText(oid, Delayed));
            SimulatePayment(db, q, pid) ==
            (db.(payments := db.payments[key := y], journal := db.journal + [PaymentNoted(pid, Waiting)]), Settled(y))
  {
    hide Trim, Lower, PaymentText;
  }

  /** Under the invariant every order of the table is of that kind. */
  lemma KnownOrderIsFresh(db: Db, q: PayRequest)
    requires Inv(db) && Complete(q) && Id(Trim(q.keyText)) !in db.payments && Id(Trim(q.orderText)) in db.orders
    ensures Fresh(db, q)
  {
    hide LedgerOk, SalesOk, LimitOk, KeysOk, PaymentsOk, JournalOk, Trim, Lower;
    var oid := Id(Trim(q.orderText));
    assert OrderRefers(db.orders[oid], db.reservations);
    var r := db.reservations[db.orders[oid].reservationId];
    assert Refers(r, db.sales) && SaleRefers(db.sales[r.saleId], db.inventory);
  }

  // ---------------------------------------------------------------- ResetDemo

  /** After ResetDemo the sale is open at once, for a year, with one unit to a customer. */
  lemma DemoSaleIsOpen(pid: Id, sid: Id, units: int, now: int, c: Call, v: Env)
    requires 1 <= units <= 100000 && Request(c) && c.saleId == sid
    ensures var reply := Handle(DemoTables(pid, sid, units, now), c, v).1;
            && reply.Answered?
            && (reply.answer.Created? <==> c.quantity == 1 && now - 60 <= v.now < now + 365 * 86400)
            && (c.quantity > 1 && now - 60 <= v.now < now + 365 * 86400 ==>
                  reply.answer == Refused(PurchaseLimitExceeded))
            && (!(now - 60 <= v.now < now + 365 * 86400) ==> reply.answer == Refused(SaleNotActive))
  {
    hide Open, ReservationText;
    TotalNone(ActiveBy(sid, c.userId), map[]);
  }
}
