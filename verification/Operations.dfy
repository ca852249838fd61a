/** Each operation of internal/store run alone, as a function on the tables: what is committed and what
    the caller is told. A refusal of Reserve commits; every other error rolls back. */
module Operations {
  import opened Domain
  import opened Tables
  import opened Fingerprint
  import opened Journal
  import opened Ledger
  import opened LedgerProofs
  import opened Machine
  import opened ExactlyOnce

  // ---------------------------------------------------------------- text

  predicate IsSpace(c: char) {
    c as int in {0x09, 0x0A, 0x0B, 0x0C, 0x0D, 0x20, 0x85, 0xA0}
  }

  function TrimLeft(s: string): string {
    if s != [] && IsSpace(s[0]) then TrimLeft(s[1..]) else s
  }

  function TrimRight(s: string): string {
    if s != [] && IsSpace(s[|s| - 1]) then TrimRight(s[..|s| - 1]) else s
  }

  /** strings.TrimSpace */
  function Trim(s: string): string {
    TrimRight(TrimLeft(s))
  }

  function Lower(s: string): string {
    seq(|s|, i requires 0 <= i < |s| => if 'A' <= s[i] <= 'Z' then (s[i] as int + 32) as char else s[i])
  }

  function Upper(s: string): string {
    seq(|s|, i requires 0 <= i < |s| => if 'a' <= s[i] <= 'z' then (s[i] as int - 32) as char else s[i])
  }

  function ParseOutcome(s: string): Option<Outcome> {
    var t := Lower(Trim(s));
    if t == "successful" then Some(Successful)
    else if t == "failed" then Some(Failed)
    else if t == "delayed" then Some(Delayed)
    else None
  }

  // ---------------------------------------------------------------- Reserve

  datatype ReserveRequest = ReserveRequest(saleId: Id, userText: string, quantity: int, keyText: string)

  /** Clocks and fresh ids: the application clock, the key's expiry, the new ids and the reservation's expiry. */
  datatype Env = Env(now: int, keyExpiresAt: int, rid: Id, oid: Id, until: int)

  datatype Reply = Answered(answer: Answer) | Invalid | Internal

  function CallOf(q: ReserveRequest): Call {
    ReserveCall(q.saleId, Id(Trim(q.userText)), q.quantity, Id(Trim(q.keyText)))
  }

  predicate Malformed(q: ReserveRequest) {
    var c := CallOf(q);
    q.saleId.text == "" || c.userId.text == "" || |c.userId.text| > 128 || q.quantity <= 0 || q.quantity > 100
    || c.key.text == "" || |c.key.text| > 200
  }

  /** A request that passed validation. */
  predicate Request(c: Call) {
    c.ReserveCall? && ValidCall(c)
  }

  function OpeningOf(db: Db, c: Call, v: Env): Opening
    requires Request(c) && c.saleId in db.sales && db.sales[c.saleId].productId in db.products
  {
    var sale := db.sales[c.saleId];
    var p := db.products[sale.productId];
    OpeningFor(c, SaleSeen(RowOf(c, v), sale.productId, sale.maxPerUser, p.price, p.currency), v.rid, v.oid, v.until)
  }

  /** The refusal before any stock is touched: sale, product and purchase limit. */
  ghost function Screen(db: Db, c: Call, now: int): (e: Option<Refusal>)
    requires Request(c)
    ensures e.None? ==>
              c.saleId in db.sales && db.sales[c.saleId].productId in db.products && db.sales[c.saleId].state == Active
  {
    var r := SaleRefusal(db, c.saleId, now);
    if r.Some? then r
    else if Total(ActiveBy(c.saleId, c.userId), db.reservations) + c.quantity > db.sales[c.saleId].maxPerUser
    then Some(PurchaseLimitExceeded)
    else None
  }

  predicate StockShort(db: Db, c: Call)
    requires Request(c) && c.saleId in db.sales
  {
    var p := db.sales[c.saleId].productId;
    p !in db.inventory || db.inventory[p].available < c.quantity
  }

  function RowOf(c: Call, v: Env): KeyRow
    requires Request(c)
  {
    ClaimRow(c.saleId, c.userId, c.quantity, v.keyExpiresAt)
  }

  /** The two guarded decrements and the inserts. */
  function TakeUnits(db: Db, c: Call, v: Env): (Db, Reply)
    requires Request(c) && c.saleId in db.sales && db.sales[c.saleId].productId in db.products
  {
    var w := OpeningOf(db, c, v);
    if db.sales[c.saleId].remaining < c.quantity then
      (Refuse(db, c.key, RowOf(c, v), AllocationSoldOut), Answered(Refused(AllocationSoldOut)))
    else if StockShort(db, c) then
      (RefuseAndLose(db, c.key, RowOf(c, v), c.saleId, c.quantity), Answered(Refused(ProductSoldOut)))
    else if w.amount < 0 then (db, Internal)
    else (Open(db, w), Answered(Created(ReceiptOf(w))))
  }

  /** What becomes of a request that passed validation. */
  ghost function Handle(db: Db, c: Call, v: Env): (Db, Reply)
    requires Request(c)
  {
    if c.key in db.keys then (db, Answered(ReplayAnswer(db.keys[c.key], c)))
    else
      var refusal := Screen(db, c, v.now);
      if refusal.Some? then (Refuse(db, c.key, RowOf(c, v), refusal.value), Answered(Refused(refusal.value)))
      else TakeUnits(db, c, v)
  }

  ghost function Reserve(db: Db, q: ReserveRequest, v: Env): (Db, Reply) {
    if Malformed(q) then (db, Invalid) else Handle(db, CallOf(q), v)
  }

  lemma HandleKeepsInv(db: Db, c: Call, v: Env)
    requires Request(c) && Inv(db) && v.rid !in db.reservations && v.oid !in db.orders
    ensures Inv(Handle(db, c, v).0)
  {
    hide Inv, Open, Refuse, RefuseAndLose;
    if c.key !in db.keys {
      var refusal := Screen(db, c, v.now);
      if refusal.Some? {
        RefuseKeepsInv(db, c.key, RowOf(c, v), refusal.value);
      } else if db.sales[c.saleId].remaining < c.quantity {
        RefuseKeepsInv(db, c.key, RowOf(c, v), AllocationSoldOut);
      } else if StockShort(db, c) {
        RefuseAndLoseKeepsInv(db, c.key, RowOf(c, v), c.saleId, c.quantity);
      } else if OpeningOf(db, c, v).amount >= 0 {
        OpenKeepsInv(db, OpeningOf(db, c, v));
      }
    }
  }

  /** Reserve alone keeps the invariant, whatever it is asked. */
  lemma ReserveKeepsInv(db: Db, q: ReserveRequest, v: Env)
    requires Inv(db) && v.rid !in db.reservations && v.oid !in db.orders
    ensures Inv(Reserve(db, q, v).0)
  {
    hide Inv, Handle, Trim;
    if !Malformed(q) {
      HandleKeepsInv(db, CallOf(q), v);
    }
  }

  predicate StoresAnswer(d: Db, c: Call, r: Reply)
    requires Request(c)
  {
    && c.key in d.keys && d.keys[c.key].response.Some?
    && r == Answered(FirstAnswer(d.keys[c.key].response.value))
    && d.keys[c.key].userId == c.userId
    && d.keys[c.key].fingerprint == ReservationText(c.saleId, c.userId, c.quantity)
  }

  lemma TakeUnitsStoresAnswer(db: Db, c: Call, v: Env)
    requires Request(c) && c.saleId in db.sales && db.sales[c.saleId].productId in db.products
    requires TakeUnits(db, c, v).1 != Internal
    ensures StoresAnswer(TakeUnits(db, c, v).0, c, TakeUnits(db, c, v).1)
  {
    hide ReservationText, Wrap64;
    var w := OpeningOf(db, c, v);
    assert w.key == c.key && AcceptedRow(w).(response := None) == RowOf(c, v);
  }

  /** Unless it rolls back, Reserve stores its answer under the key. */
  lemma HandleStoresAnswer(db: Db, c: Call, v: Env)
    requires Request(c) && c.key !in db.keys && Handle(db, c, v).1 != Internal
    ensures StoresAnswer(Handle(db, c, v).0, c, Handle(db, c, v).1)
  {
    hide Screen, ReservationText, TakeUnits;
    if Screen(db, c, v.now).None? {
      TakeUnitsStoresAnswer(db, c, v);
    }
  }

  /** A repeat of an answered request is told the same again and changes nothing; under the same key any
      other user, sale or quantity gets a conflict and changes nothing. */
  lemma ReserveReplays(db: Db, q: ReserveRequest, v: Env, again: ReserveRequest, later: Env)
    requires !Malformed(q) && CallOf(q).key !in db.keys && Reserve(db, q, v).1 != Internal
    requires !Malformed(again) && CallOf(again).key == CallOf(q).key
    ensures var d := Reserve(db, q, v).0;
            Reserve(db, q, v).1.Answered? &&
            Reserve(d, again, later) ==
            (d, Answered(if SameRequest(CallOf(again), CallOf(q)) then Again(Reserve(db, q, v).1.answer) else Conflict))
  {
    hide Screen, TakeUnits, Trim, ReservationText;
    var c, e := CallOf(q), CallOf(again);
    SameReservationRequest(e.saleId, e.userId, e.quantity, c.saleId, c.userId, c.quantity);
    HandleStoresAnswer(db, c, v);
  }

  // ---------------------------------------------------------------- lost units

  /** The request passes every check and the sale update, and then finds the product's stock too low. */
  ghost predicate LosesUnits(db: Db, c: Call, v: Env)
    requires Request(c)
  {
    c.key !in db.keys && Screen(db, c, v.now).None? && db.sales[c.saleId].remaining >= c.quantity && StockShort(db, c)
  }

  lemma LostAfterHandle(db: Db, c: Call, v: Env, saleId: Id)
    requires Request(c)
    ensures Lost(Handle(db, c, v).0.journal, saleId)
            == Lost(db.journal, saleId) + (if LosesUnits(db, c, v) && saleId == c.saleId then c.quantity else 0)
  {
    hide Screen, Lost;
    if c.key !in db.keys && Screen(db, c, v.now).None? {
      LostNext(db.journal, UnitsLost(c.saleId, c.quantity), saleId);
      if !StockShort(db, c) {
        var w := OpeningOf(db, c, v);
        LostNext(db.journal, Opened(w.rid, w.productId, w.quantity), saleId);
      }
    }
  }

  lemma SalesPersist(db: Db, c: Call, v: Env, saleId: Id)
    requires Request(c) && saleId in db.sales
    ensures saleId in Handle(db, c, v).0.sales
  {
    hide Screen;
  }

  /** remaining_stock plus active quantity equals allocated_stock after Reserve exactly when the request
      did not run into the second sold-out branch. */
  lemma AllocationExactlyWhen(db: Db, c: Call, v: Env, saleId: Id)
    requires Request(c) && Inv(db) && v.rid !in db.reservations && v.oid !in db.orders
    requires saleId in db.sales && Lost(db.journal, saleId) == 0
    ensures var d := Handle(db, c, v).0;
            saleId in d.sales &&
            (d.sales[saleId].remaining + Total(ActiveIn(saleId), d.reservations) == d.sales[saleId].allocation
             <==> !(saleId == c.saleId && LosesUnits(db, c, v)))
  {
    hide Screen, Handle, RefsOk, LedgerOk, LimitOk, OrdersOk, KeysOk, PaymentsOk, JournalOk;
    var d := Handle(db, c, v).0;
    SalesPersist(db, c, v, saleId);
    HandleKeepsInv(db, c, v);
    LostAfterHandle(db, c, v, saleId);
    assert SaleOk(saleId, d.sales[saleId], d.reservations, d.journal);
  }

  /** A product without stock in a sale of five units, activated. */
  function Oversized(p: Id, s: Id): Db {
    var stocked := AddProduct(EMPTY, p, Product("A", 1, "THB", true), 0);
    SetSaleState(AddSale(stocked, s, Sale(p, 0, 10, 5, 5, 1, Draft)), s, Active)
  }

  lemma OversizedHasInv(p: Id, s: Id)
    ensures Inv(Oversized(p, s)) && Lost(Oversized(p, s).journal, s) == 0
  {
    var product, sale := Product("A", 1, "THB", true), Sale(p, 0, 10, 5, 5, 1, Draft);
    var d1 := AddProduct(EMPTY, p, product, 0);
    assert CanAddSale(d1, s, sale);
    assert Oversized(p, s).journal == [] + [StockSet(p, 0)];
    LostNext([], StockSet(p, 0), s);
    hide Inv, Lost;
    EmptyHasInv();
    AddProductKeepsInv(EMPTY, p, product, 0);
    AddSaleKeepsInv(d1, s, sale);
    SetSaleStateKeepsInv(AddSale(d1, s, sale), s, Active);
  }

  // ---------------------------------------------------------------- SimulatePayment

  datatype PayReply =
    | Settled(payment: Payment)
    | AlreadySettled(payment: Payment)
    | PayConflict
    | NotPayable
    | PayInvalid
    | PayInternal

  datatype PayRequest = PayRequest(orderText: string, outcomeText: string, keyText: string)

  /** An unknown order fails the foreign key of the payment row, before the order is looked up. */
  function SimulatePayment(db: Db, q: PayRequest, pid: Id): (Db, PayReply) {
    var oid, key, outcome := Id(Trim(q.orderText)), Id(Trim(q.keyText)), ParseOutcome(q.outcomeText);
    if oid.text == "" || key.text == "" || outcome.None? then (db, PayInvalid)
    else if key in db.payments then
      (db, if db.payments[key].fingerprint != PaymentText(oid, outcome.value) then PayConflict
       else AlreadySettled(db.payments[key]))
    else if oid !in db.orders || db.orders[oid].reservationId !in db.reservations then (db, PayInternal)
    else if !CanPay(db, key, oid, outcome.value) then (db, NotPayable)
    else if outcome.value == Successful && !CanMove(db, db.orders[oid].reservationId, oid, Paid) then (db, PayInternal)
    else (Pay(db, key, pid, oid, outcome.value), Settled(PaymentRow(pid, oid, outcome.value)))
  }

  lemma PaymentsKeepInv(db: Db, q: PayRequest, pid: Id)
    requires Inv(db)
    ensures Inv(SimulatePayment(db, q, pid).0)
  {
    hide Inv, Pay, Trim, ParseOutcome, PaymentText;
    var oid, key, outcome := Id(Trim(q.orderText)), Id(Trim(q.keyText)), ParseOutcome(q.outcomeText);
    if outcome.Some? && CanPay(db, key, oid, outcome.value) {
      PayKeepsInv(db, key, pid, oid, outcome.value);
    }
  }

  /** A settled payment answers every repeat of its key the same way and
      refuses every other request under it. */
  lemma PaymentsReplay(db: Db, q: PayRequest, pid: Id, again: PayRequest, other: Id)
    requires SimulatePayment(db, q, pid).1.Settled?
    requires Id(Trim(again.keyText)) == Id(Trim(q.keyText)) && Trim(again.orderText) != "" &&
             ParseOutcome(again.outcomeText).Some?
    ensures var (d, reply) := SimulatePayment(db, q, pid);
            SimulatePayment(d, again, other) ==
            (d, if Trim(again.orderText) == Trim(q.orderText)
                   && ParseOutcome(again.outcomeText) == ParseOutcome(q.outcomeText)
                then AlreadySettled(reply.payment) else PayConflict)
  {
    hide Trim, ParseOutcome, PaymentText, CanMove, Move;
    SamePaymentRequest(Id(Trim(again.orderText)), ParseOutcome(again.outcomeText).value,
                       Id(Trim(q.orderText)), ParseOutcome(q.outcomeText).value);
  }
}
