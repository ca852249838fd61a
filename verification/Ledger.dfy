/** What one committed transaction does to the tables, and the invariant every one of them keeps. */
module Ledger {
  import opened Domain
  import opened Tables
  import opened Fingerprint
  import opened Journal

  // ---------------------------------------------------------------- the invariant, table by table

  predicate SaleRefers(s: Sale, inventory: map<Id, Stock>) {
    s.productId in inventory
  }

  predicate Refers(r: Reservation, sales: map<Id, Sale>) {
    r.saleId in sales && sales[r.saleId].productId == r.productId && r.quantity >= 1
  }

  /** Foreign keys: reservations and sales name existing rows, and a reservation's product is its sale's. */
  ghost predicate RefsOk(products: map<Id, Product>, inventory: map<Id, Stock>, sales: map<Id, Sale>,
                         reservations: map<Id, Reservation>)
  {
    && products.Keys == inventory.Keys
    && (forall s :: s in sales ==> SaleRefers(sales[s], inventory))
    && (forall r :: r in reservations ==> Refers(reservations[r], sales))
  }

  ghost predicate StockOk(p: Id, t: Stock, reservations: map<Id, Reservation>) {
    && t.available >= 0
    && t.reserved == Total(Held(p), reservations) >= 0
    && t.sold == Total(SoldOf(p), reservations) >= 0
    && t.available + t.reserved + t.sold == t.expectedTotal <= INT4_MAX
  }

  /** The inventory counters are exactly the sums over the reservation table. */
  ghost predicate LedgerOk(inventory: map<Id, Stock>, reservations: map<Id, Reservation>) {
    forall p :: p in inventory ==> StockOk(p, inventory[p], reservations)
  }

  ghost predicate SaleOk(s: Id, sale: Sale, reservations: map<Id, Reservation>, journal: seq<Entry>) {
    && sale.remaining >= 0
    && sale.remaining + Total(ActiveIn(s), reservations) + Lost(journal, s) == sale.allocation <= INT4_MAX
  }

  /** Remaining, active and lost units of a sale add up to its allocation. */
  ghost predicate SalesOk(sales: map<Id, Sale>, reservations: map<Id, Reservation>, journal: seq<Entry>) {
    && (forall s :: s in sales ==> SaleOk(s, sales[s], reservations, journal))
    && (forall s :: Lost(journal, s) >= 0 && (s !in sales ==> Lost(journal, s) == 0))
  }

  /** The per-user purchase limit. */
  ghost predicate LimitOk(sales: map<Id, Sale>, reservations: map<Id, Reservation>) {
    forall s, u :: s in sales ==> Total(ActiveBy(s, u), reservations) <= sales[s].maxPerUser
  }

  predicate OrderStateOk(order: OrderState, reservation: ReservationState) {
    order == Follows(reservation) || (order == PaymentFailed && (reservation == Pending || reservation == Confirmed))
  }

  predicate OrderMatches(o: Order, r: Reservation) {
    && o.saleId == r.saleId && o.productId == r.productId && o.userId == r.userId && o.quantity == r.quantity
    && o.amount >= 0
    && OrderStateOk(o.state, r.state)
  }

  predicate OrderRefers(o: Order, reservations: map<Id, Reservation>) {
    o.reservationId in reservations && OrderMatches(o, reservations[o.reservationId])
  }

  predicate OrderFor(orders: map<Id, Order>, o: Id, rid: Id) {
    o in orders && orders[o].reservationId == rid
  }

  /** Orders and reservations correspond one to one. */
  ghost predicate OrdersOk(orders: map<Id, Order>, reservations: map<Id, Reservation>) {
    && (forall o :: o in orders ==> OrderRefers(orders[o], reservations))
    && (forall o, p, rid :: OrderFor(orders, o, rid) && OrderFor(orders, p, rid) ==> o == p)
    && (forall rid :: rid in reservations ==> exists o :: OrderFor(orders, o, rid))
  }

  predicate PaidFor(payments: map<Id, Payment>, k: Id, o: Id) {
    k in payments && payments[k].orderId == o && payments[k].status == Succeeded
  }

  predicate IsPaid(orders: map<Id, Order>, reservations: map<Id, Reservation>, o: Id) {
    o in orders && orders[o].reservationId in reservations && reservations[orders[o].reservationId].state == Paid
  }

  predicate PaymentRefers(y: Payment, orders: map<Id, Order>) {
    y.orderId in orders && y.status == StatusOf(y.outcome) && y.fingerprint == PaymentText(y.orderId, y.outcome)
  }

  /** An order has a succeeded payment exactly when its reservation is paid, and never two. */
  ghost predicate PaymentsOk(payments: map<Id, Payment>, orders: map<Id, Order>, reservations: map<Id, Reservation>) {
    && (forall k :: k in payments ==> PaymentRefers(payments[k], orders))
    && (forall k, o :: PaidFor(payments, k, o) ==> IsPaid(orders, reservations, o))
    && (forall k, l, o :: PaidFor(payments, k, o) && PaidFor(payments, l, o) ==> k == l)
    && (forall o :: IsPaid(orders, reservations, o) ==> exists k :: PaidFor(payments, k, o))
  }

  predicate ReceiptMatches(c: Receipt, r: Reservation) {
    && c.saleId == r.saleId && c.productId == r.productId && c.userId == r.userId
    && c.quantity == r.quantity && c.expiresAt == r.expiresAt
  }

  predicate Accepts(keys: map<Id, KeyRow>, k: Id, rid: Id) {
    k in keys && keys[k].response.Some? && keys[k].response.value.Accepted?
    && keys[k].response.value.receipt.reservationId == rid
  }

  predicate ReceiptRefers(row: KeyRow, c: Receipt, orders: map<Id, Order>, reservations: map<Id, Reservation>) {
    && c.reservationId in reservations && ReceiptMatches(c, reservations[c.reservationId])
    && OrderFor(orders, c.orderId, c.reservationId)
    && c.userId == row.userId
    && c.quantity >= 1 && row.fingerprint == ReservationText(c.saleId, c.userId, c.quantity)
  }

  predicate KeyOk(row: KeyRow, orders: map<Id, Order>, reservations: map<Id, Reservation>) {
    && row.response.Some?
    && (row.response.value.Accepted? ==> ReceiptRefers(row, row.response.value.receipt, orders, reservations))
  }

  /** Every key row is complete; a stored success names a reservation and order made for that request,
      and no two rows name the same one. */
  ghost predicate KeysOk(keys: map<Id, KeyRow>, orders: map<Id, Order>, reservations: map<Id, Reservation>) {
    && (forall k :: k in keys ==> KeyOk(keys[k], orders, reservations))
    && (forall k, l, rid :: Accepts(keys, k, rid) && Accepts(keys, l, rid) ==> k == l)
  }

  /** The event log replays to the tables. */
  predicate JournalOk(journal: seq<Entry>, inventory: map<Id, Stock>, reservations: map<Id, Reservation>) {
    Replay(journal) == Some(BookOf(inventory, reservations))
  }

  ghost predicate Core(db: Db) {
    && RefsOk(db.products, db.inventory, db.sales, db.reservations)
    && LedgerOk(db.inventory, db.reservations)
    && SalesOk(db.sales, db.reservations, db.journal)
    && LimitOk(db.sales, db.reservations)
    && OrdersOk(db.orders, db.reservations)
    && KeysOk(db.keys, db.orders, db.reservations)
    && JournalOk(db.journal, db.inventory, db.reservations)
  }

  ghost predicate Inv(db: Db) {
    Core(db) && PaymentsOk(db.payments, db.orders, db.reservations)
  }

  // ---------------------------------------------------------------- committed effects

  /** Everything a successful Reserve writes. */
  datatype Opening = Opening(
    rid: Id, oid: Id, saleId: Id, productId: Id, userId: Id, quantity: int, expiresAt: int,
    amount: int, currency: string, key: Id, keyExpiresAt: int)

  function ReservationOf(w: Opening): Reservation {
    Reservation(w.saleId, w.productId, w.userId, w.quantity, Pending, w.expiresAt)
  }

  function OrderOf(w: Opening): Order {
    Order(w.rid, w.saleId, w.productId, w.userId, w.quantity, w.amount, w.currency, Follows(Pending))
  }

  function ReceiptOf(w: Opening): Receipt {
    Receipt(w.rid, w.oid, w.saleId, w.productId, w.userId, w.quantity, w.expiresAt)
  }

  function ClaimRow(saleId: Id, userId: Id, quantity: nat, expiresAt: int): KeyRow {
    KeyRow(userId, ReservationText(saleId, userId, quantity), None, expiresAt)
  }

  function AcceptedRow(w: Opening): KeyRow
    requires w.quantity >= 1
  {
    ClaimRow(w.saleId, w.userId, w.quantity, w.keyExpiresAt).(response := Some(Accepted(ReceiptOf(w))))
  }

  /** The conditions under which the database lets a reservation commit. */
  ghost predicate CanOpen(db: Db, w: Opening) {
    && w.quantity >= 1 && w.amount >= 0
    && w.rid !in db.reservations && w.oid !in db.orders && w.key !in db.keys
    && w.saleId in db.sales && w.productId in db.inventory
    && db.sales[w.saleId].productId == w.productId
    && db.sales[w.saleId].state == Active
    && db.sales[w.saleId].remaining >= w.quantity
    && db.inventory[w.productId].available >= w.quantity
    && Total(ActiveBy(w.saleId, w.userId), db.reservations) + w.quantity <= db.sales[w.saleId].maxPerUser
  }

  function Open(db: Db, w: Opening): Db
    requires w.saleId in db.sales && w.productId in db.inventory && w.quantity >= 1
  {
    var s, t := db.sales[w.saleId], db.inventory[w.productId];
    db.(sales := db.sales[w.saleId := s.(remaining := s.remaining - w.quantity)],
        inventory := db.inventory[w.productId :=
          t.(available := t.available - w.quantity, reserved := t.reserved + w.quantity)],
        reservations := db.reservations[w.rid := ReservationOf(w)],
        orders := db.orders[w.oid := OrderOf(w)],
        keys := db.keys[w.key := AcceptedRow(w)],
        journal := db.journal + [Opened(w.rid, w.productId, w.quantity)])
  }

  /** A refusal stored under its key. */
  function Refuse(db: Db, key: Id, row: KeyRow, refusal: Refusal): Db {
    db.(keys := db.keys[key := row.(response := Some(Declined(refusal)))])
  }

  /** The second sold-out branch: the refusal commits together with the sale decrement. */
  function RefuseAndLose(db: Db, key: Id, row: KeyRow, saleId: Id, q: int): Db
    requires saleId in db.sales
  {
    var s := db.sales[saleId];
    Refuse(db, key, row, ProductSoldOut)
      .(sales := db.sales[saleId := s.(remaining := s.remaining - q)],
        journal := db.journal + [UnitsLost(saleId, q)])
  }

  function StockAfter(t: Stock, to: ReservationState, q: int): Stock {
    match to
    case Paid => t.(reserved := t.reserved - q, sold := t.sold + q)
    case Cancelled => t.(available := t.available + q, reserved := t.reserved - q)
    case Expired => t.(available := t.available + q, reserved := t.reserved - q)
    case _ => t
  }

  function SaleAfter(s: Sale, to: ReservationState, q: int): Sale {
    if to == Cancelled || to == Expired then s.(remaining := s.remaining + q) else s
  }

  predicate CanMove(db: Db, rid: Id, oid: Id, to: ReservationState) {
    && rid in db.reservations && oid in db.orders && db.orders[oid].reservationId == rid
    && ValidTransition(db.reservations[rid].state, to)
    && db.reservations[rid].productId in db.inventory && db.reservations[rid].saleId in db.sales
  }

  /** One lifecycle edge: the reservation, its order, both counters and the event. */
  function Move(db: Db, rid: Id, oid: Id, to: ReservationState): Db
    requires CanMove(db, rid, oid, to)
  {
    var r := db.reservations[rid];
    db.(reservations := db.reservations[rid := r.(state := to)],
        orders := db.orders[oid := db.orders[oid].(state := Follows(to))],
        inventory := db.inventory[r.productId := StockAfter(db.inventory[r.productId], to, r.quantity)],
        sales := db.sales[r.saleId := SaleAfter(db.sales[r.saleId], to, r.quantity)],
        journal := db.journal + [Moved(rid, r.state, to)])
  }

  function PaymentRow(pid: Id, oid: Id, outcome: Outcome): Payment {
    Payment(pid, oid, outcome, StatusOf(outcome), PaymentText(oid, outcome))
  }

  predicate CanPay(db: Db, key: Id, oid: Id, outcome: Outcome) {
    && key !in db.payments && oid in db.orders
    && db.orders[oid].reservationId in db.reservations
    && var state := db.reservations[db.orders[oid].reservationId].state;
       && (outcome == Successful ==> state == Confirmed)
       && (outcome == Failed ==> state == Pending || state == Confirmed)
  }

  /** A payment callback that is not a repeat: only a successful one moves stock. */
  function Pay(db: Db, key: Id, pid: Id, oid: Id, outcome: Outcome): Db
    requires CanPay(db, key, oid, outcome)
    requires outcome == Successful ==> CanMove(db, db.orders[oid].reservationId, oid, Paid)
  {
    var moved := match outcome
      case Successful => Move(db, db.orders[oid].reservationId, oid, Paid)
      case Failed => db.(orders := db.orders[oid := db.orders[oid].(state := PaymentFailed)])
      case Delayed => db;
    moved.(payments := db.payments[key := PaymentRow(pid, oid, outcome)],
           journal := moved.journal + [PaymentNoted(pid, StatusOf(outcome))])
  }

  function AddProduct(db: Db, id: Id, p: Product, level: int): Db {
    db.(products := db.products[id := p],
        inventory := db.inventory[id := Stock(level, 0, 0, level)],
        journal := db.journal + [StockSet(id, level)])
  }

  /** UpdateProduct: `expected_total` is recomputed around the units already reserved and sold. */
  function EditProduct(db: Db, id: Id, p: Product, level: Option<int>): Db
    requires id in db.inventory
  {
    var edited := db.(products := db.products[id := p]);
    match level
    case None => edited
    case Some(n) =>
      var t := db.inventory[id];
      edited.(inventory := db.inventory[id := t.(available := n, expectedTotal := n + t.reserved + t.sold)],
              journal := db.journal + [StockSet(id, n)])
  }

  predicate CanEdit(db: Db, id: Id, level: Option<int>) {
    && id in db.products && id in db.inventory
    && (level.Some? ==> 0 <= level.value && level.value + db.inventory[id].reserved + db.inventory[id].sold <= INT4_MAX)
  }

  function AddSale(db: Db, id: Id, s: Sale): Db {
    db.(sales := db.sales[id := s])
  }

  predicate CanAddSale(db: Db, id: Id, s: Sale) {
    && id !in db.sales && s.productId in db.inventory
    && 0 < s.allocation == s.remaining <= INT4_MAX && 0 < s.maxPerUser
  }

  function SetSaleState(db: Db, id: Id, state: SaleState): Db
    requires id in db.sales
  {
    db.(sales := db.sales[id := db.sales[id].(state := state)])
  }

  function Purge(db: Db, expired: set<Id>): Db {
    db.(keys := db.keys - expired)
  }
}
