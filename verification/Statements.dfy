/** The writing SQL statements, one row each, and what a list of them does to the tables. */
module Statements {
  import opened Domain
  import opened Tables

  /** UPDATE inventory ... WHERE available >= q  /  WHERE reserved >= q. */
  datatype StockOp = Take(q: int) | Restore(q: int) | Sell(q: int)

  /** UPDATE flash_sales ... WHERE state='active' AND remaining_stock >= q  /  unconditional. */
  datatype SaleOp = Spend(q: int) | Refill(q: int)

  datatype ReservationOp = InsertReservation(row: Reservation) | SetReservation(to: ReservationState)

  datatype OrderOp = InsertOrder(row: Order) | SetOrder(to: OrderState)

  datatype PaymentOp = InsertPayment(row: Payment) | SetPayment(to: PaymentStatus)

  datatype KeyOp = InsertKey(row: KeyRow) | SetResponse(response: Response)

  datatype Stmt =
    | OnStock(p: Id, stock: StockOp)
    | OnSale(s: Id, sale: SaleOp)
    | OnReservation(r: Id, reservation: ReservationOp)
    | OnOrder(o: Id, order: OrderOp)
    | OnPayment(k: Id, payment: PaymentOp)
    | OnKey(k: Id, keyOp: KeyOp)
    | Emit(entry: Entry)

  // The new version of a row, or None when the statement touches no row.

  function NewStock(op: StockOp, row: Option<Stock>): Option<Stock> {
    if row.None? then None
    else
      var t := row.value;
      match op
      case Take(q) =>
        if t.available >= q then Some(t.(available := t.available - q, reserved := t.reserved + q)) else None
      case Restore(q) =>
        if t.reserved >= q then Some(t.(available := t.available + q, reserved := t.reserved - q)) else None
      case Sell(q) => if t.reserved >= q then Some(t.(reserved := t.reserved - q, sold := t.sold + q)) else None
  }

  function NewSale(op: SaleOp, row: Option<Sale>): Option<Sale> {
    if row.None? then None
    else
      var s := row.value;
      match op
      case Spend(q) => if s.state == Active && s.remaining >= q then Some(s.(remaining := s.remaining - q)) else None
      case Refill(q) => Some(s.(remaining := s.remaining + q))
  }

  function NewReservation(op: ReservationOp, row: Option<Reservation>): Option<Reservation> {
    match op
    case InsertReservation(n) => if row.None? then Some(n) else None
    case SetReservation(to) => if row.Some? then Some(row.value.(state := to)) else None
  }

  /** amount_minor carries CHECK (amount_minor >= 0). */
  function NewOrder(op: OrderOp, row: Option<Order>): Option<Order> {
    match op
    case InsertOrder(n) => if row.None? && n.amount >= 0 then Some(n) else None
    case SetOrder(to) => if row.Some? then Some(row.value.(state := to)) else None
  }

  function NewPayment(op: PaymentOp, row: Option<Payment>): Option<Payment> {
    match op
    case InsertPayment(n) => if row.None? then Some(n) else None
    case SetPayment(to) => if row.Some? then Some(row.value.(status := to)) else None
  }

  function NewKey(op: KeyOp, row: Option<KeyRow>): Option<KeyRow> {
    match op
    case InsertKey(n) => if row.None? then Some(n) else None
    case SetResponse(a) => if row.Some? then Some(row.value.(response := Some(a))) else None
  }

  /** RowsAffected() == 1. */
  predicate Hits(db: Db, s: Stmt) {
    match s
    case OnStock(p, op) => NewStock(op, Get(db.inventory, p)).Some?
    case OnSale(i, op) => NewSale(op, Get(db.sales, i)).Some?
    case OnReservation(r, op) => NewReservation(op, Get(db.reservations, r)).Some?
    case OnOrder(o, op) => NewOrder(op, Get(db.orders, o)).Some?
    case OnPayment(k, op) => NewPayment(op, Get(db.payments, k)).Some?
    case OnKey(k, op) => NewKey(op, Get(db.keys, k)).Some?
    case Emit(_) => true
  }

  /** The tables after a statement that hits. */
  function Exec(db: Db, s: Stmt): Db
    requires Hits(db, s)
  {
    match s
    case OnStock(p, op) => db.(inventory := db.inventory[p := NewStock(op, Get(db.inventory, p)).value])
    case OnSale(i, op) => db.(sales := db.sales[i := NewSale(op, Get(db.sales, i)).value])
    case OnReservation(r, op) =>
      db.(reservations := db.reservations[r := NewReservation(op, Get(db.reservations, r)).value])
    case OnOrder(o, op) => db.(orders := db.orders[o := NewOrder(op, Get(db.orders, o)).value])
    case OnPayment(k, op) => db.(payments := db.payments[k := NewPayment(op, Get(db.payments, k)).value])
    case OnKey(k, op) => db.(keys := db.keys[k := NewKey(op, Get(db.keys, k)).value])
    case Emit(e) => db.(journal := db.journal + [e])
  }

  /** One more statement; None once a statement has missed. */
  function Then(db: Option<Db>, s: Stmt): Option<Db> {
    if db.Some? && Hits(db.value, s) then Some(Exec(db.value, s)) else None
  }

  /** A list of statements, each of which hits in turn: the tables afterwards, or None if one misses. */
  function RunAll(db: Db, ss: seq<Stmt>): Option<Db> {
    if ss == [] then Some(db) else Then(RunAll(db, ss[..|ss| - 1]), ss[|ss| - 1])
  }

  // One statement at a time, as a row that changes or a miss.

  lemma ThenInsertKey(d: Db, k: Id, row: KeyRow)
    ensures Then(Some(d), OnKey(k, InsertKey(row))) == if k in d.keys then None else Some(d.(keys := d.keys[k := row]))
  {
  }

  lemma ThenSetResponse(d: Db, k: Id, a: Response)
    requires k in d.keys
    ensures Then(Some(d), OnKey(k, SetResponse(a))) == Some(d.(keys := d.keys[k := d.keys[k].(response := Some(a))]))
  {
  }

  lemma ThenSale(d: Db, i: Id, op: SaleOp)
    ensures Then(Some(d), OnSale(i, op)) ==
            var n := NewSale(op, Get(d.sales, i)); if n.Some? then Some(d.(sales := d.sales[i := n.value])) else None
  {
  }

  lemma ThenStock(d: Db, p: Id, op: StockOp)
    ensures Then(Some(d), OnStock(p, op)) ==
            var n := NewStock(op, Get(d.inventory, p));
            if n.Some? then Some(d.(inventory := d.inventory[p := n.value])) else None
  {
  }

  lemma ThenReservation(d: Db, r: Id, op: ReservationOp)
    ensures Then(Some(d), OnReservation(r, op)) ==
            var n := NewReservation(op, Get(d.reservations, r));
            if n.Some? then Some(d.(reservations := d.reservations[r := n.value])) else None
  {
  }

  lemma ThenOrder(d: Db, o: Id, op: OrderOp)
    ensures Then(Some(d), OnOrder(o, op)) ==
            var n := NewOrder(op, Get(d.orders, o));
            if n.Some? then Some(d.(orders := d.orders[o := n.value])) else None
  {
  }

  lemma ThenPayment(d: Db, k: Id, op: PaymentOp)
    ensures Then(Some(d), OnPayment(k, op)) ==
            var n := NewPayment(op, Get(d.payments, k));
            if n.Some? then Some(d.(payments := d.payments[k := n.value])) else None
  {
  }

  lemma ThenEmit(d: Db, e: Entry)
    ensures Then(Some(d), Emit(e)) == Some(d.(journal := d.journal + [e]))
  {
  }

  lemma ThenMissed(s: Stmt)
    ensures Then(None, s) == None
  {
  }

  lemma RunNothing(db: Db)
    ensures RunAll(db, []) == Some(db)
  {
  }

  lemma RunNext(db: Db, ss: seq<Stmt>, s: Stmt)
    ensures RunAll(db, ss + [s]) == Then(RunAll(db, ss), s)
  {
    assert (ss + [s])[..|ss|] == ss;
  }

  lemma {:induction false} RunAppend(db: Db, ss: seq<Stmt>, tt: seq<Stmt>)
    ensures RunAll(db, ss + tt) ==
            var before := RunAll(db, ss);
            if before.None? then None else RunAll(before.value, tt)
  {
    if tt == [] {
      assert ss + tt == ss;
    } else {
      var t, last := tt[..|tt| - 1], tt[|tt| - 1];
      assert ss + tt == (ss + t) + [last];
      RunAppend(db, ss, t);
      RunNext(db, ss + t, last);
    }
  }

  lemma Run2(db: Db, a: Stmt, b: Stmt)
    ensures RunAll(db, [a, b]) == Then(Then(Some(db), a), b)
  {
    RunNext(db, [], a);
    RunNext(db, [a], b);
    assert [] + [a] == [a] && [a] + [b] == [a, b];
  }

  lemma Run4(db: Db, a: Stmt, b: Stmt, c: Stmt, d: Stmt)
    ensures RunAll(db, [a, b, c]) == Then(Then(Then(Some(db), a), b), c)
    ensures RunAll(db, [a, b, c, d]) == Then(Then(Then(Then(Some(db), a), b), c), d)
  {
    Run2(db, a, b);
    RunNext(db, [a, b], c);
    RunNext(db, [a, b, c], d);
    assert [a, b] + [c] == [a, b, c] && [a, b, c] + [d] == [a, b, c, d];
  }

  lemma Run5(db: Db, a: Stmt, b: Stmt, c: Stmt, d: Stmt, e: Stmt)
    ensures RunAll(db, [a, b, c, d, e]) == Then(Then(Then(Then(Then(Some(db), a), b), c), d), e)
  {
    Run4(db, a, b, c, d);
    RunNext(db, [a, b, c, d], e);
    assert [a, b, c, d] + [e] == [a, b, c, d, e];
  }
}
