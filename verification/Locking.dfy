/** Row locks under READ COMMITTED. A transaction keeps its uncommitted row versions to itself and holds
    each written row until it ends; the lemma at the end turns that into serial execution at commit. */
module Locking {
  import opened Domain
  import opened Tables
  import opened Statements

  datatype Lock =
    | StockLock(p: Id)
    | SaleLock(s: Id)
    | ReservationLock(r: Id)
    | OrderLock(o: Id)
    | PaymentLock(k: Id)
    | KeyLock(k: Id)

  /** The row a statement locks. */
  function LocksOf(s: Stmt): set<Lock> {
    match s
    case OnStock(p, _) => {StockLock(p)}
    case OnSale(i, _) => {SaleLock(i)}
    case OnReservation(r, _) => {ReservationLock(r)}
    case OnOrder(o, _) => {OrderLock(o)}
    case OnPayment(k, _) => {PaymentLock(k)}
    case OnKey(k, _) => {KeyLock(k)}
    case Emit(_) => {}
  }

  predicate SameRow(h: Db, g: Db, l: Lock) {
    match l
    case StockLock(p) => Get(h.inventory, p) == Get(g.inventory, p)
    case SaleLock(s) => Get(h.sales, s) == Get(g.sales, s)
    case ReservationLock(r) => Get(h.reservations, r) == Get(g.reservations, r)
    case OrderLock(o) => Get(h.orders, o) == Get(g.orders, o)
    case PaymentLock(k) => Get(h.payments, k) == Get(g.payments, k)
    case KeyLock(k) => Get(h.keys, k) == Get(g.keys, k)
  }

  ghost predicate Agree(h: Db, g: Db, locks: set<Lock>) {
    forall l :: l in locks ==> SameRow(h, g, l)
  }

  /** What a transaction sees of the rows it locked, and what it publishes at commit: its own row
      versions over the committed tables. */
  function Publish(g: Db, own: Db): Db {
    Db(g.products, g.inventory + own.inventory, g.sales + own.sales, g.reservations + own.reservations,
       g.orders + own.orders, g.payments + own.payments, g.keys + own.keys, g.journal + own.journal)
  }

  /** Own row versions after one more statement; the new version is computed from the row as seen now. */
  function Absorb(own: Db, seen: Db, s: Stmt): Db
    requires Hits(seen, s)
  {
    match s
    case OnStock(p, op) => own.(inventory := own.inventory[p := NewStock(op, Get(seen.inventory, p)).value])
    case OnSale(i, op) => own.(sales := own.sales[i := NewSale(op, Get(seen.sales, i)).value])
    case OnReservation(r, op) =>
      own.(reservations := own.reservations[r := NewReservation(op, Get(seen.reservations, r)).value])
    case OnOrder(o, op) => own.(orders := own.orders[o := NewOrder(op, Get(seen.orders, o)).value])
    case OnPayment(k, op) => own.(payments := own.payments[k := NewPayment(op, Get(seen.payments, k)).value])
    case OnKey(k, op) => own.(keys := own.keys[k := NewKey(op, Get(seen.keys, k)).value])
    case Emit(e) => own.(journal := own.journal + [e])
  }

  /** Every own row version is of a locked row. */
  ghost predicate Covered(own: Db, locks: set<Lock>) {
    && (forall p :: p in own.inventory ==> StockLock(p) in locks)
    && (forall s :: s in own.sales ==> SaleLock(s) in locks)
    && (forall r :: r in own.reservations ==> ReservationLock(r) in locks)
    && (forall o :: o in own.orders ==> OrderLock(o) in locks)
    && (forall k :: k in own.payments ==> PaymentLock(k) in locks)
    && (forall k :: k in own.keys ==> KeyLock(k) in locks)
  }

  lemma AbsorbCovered(own: Db, seen: Db, s: Stmt, locks: set<Lock>)
    requires Covered(own, locks) && Hits(seen, s)
    ensures Covered(Absorb(own, seen, s), locks + LocksOf(s))
  {
  }

  /** Publishing rows one transaction locked does not touch the rows of another. */
  lemma PublishKeepsOthers(g: Db, own: Db, mine: set<Lock>, theirs: set<Lock>)
    requires Covered(own, mine) && mine !! theirs
    ensures Agree(Publish(g, own), g, theirs)
  {
    var d := Publish(g, own);
    forall l | l in theirs ensures SameRow(d, g, l) {
      assert l !in mine;
    }
  }

  lemma PutOver<K, V>(h: map<K, V>, g: map<K, V>, own: map<K, V>, k: K, v: V)
    requires Get(h, k) == Get(g, k)
    ensures Get(h + own, k) == Get(g + own, k)
    ensures h + own[k := v] == (h + own)[k := v]
  {
    assert (h + own[k := v]).Keys == (h + own)[k := v].Keys;
  }

  /** On any tables with the same locked row, the absorbed version is what the statement would do there. */
  lemma AbsorbIsExec(h: Db, g: Db, own: Db, s: Stmt)
    requires Hits(Publish(g, own), s) && Agree(h, g, LocksOf(s))
    ensures Then(Some(Publish(h, own)), s) == Some(Publish(h, Absorb(own, Publish(g, own), s)))
  {
    var seen := Publish(g, own);
    hide NewStock, NewSale, NewReservation, NewOrder, NewPayment, NewKey, Get;
    match s
    case OnStock(p, op) =>
      assert SameRow(h, g, StockLock(p));
      PutOver(h.inventory, g.inventory, own.inventory, p, NewStock(op, Get(seen.inventory, p)).value);
    case OnSale(i, op) =>
      assert SameRow(h, g, SaleLock(i));
      PutOver(h.sales, g.sales, own.sales, i, NewSale(op, Get(seen.sales, i)).value);
    case OnReservation(r, op) =>
      assert SameRow(h, g, ReservationLock(r));
      PutOver(h.reservations, g.reservations, own.reservations, r, NewReservation(op, Get(seen.reservations, r)).value);
    case OnOrder(o, op) =>
      assert SameRow(h, g, OrderLock(o));
      PutOver(h.orders, g.orders, own.orders, o, NewOrder(op, Get(seen.orders, o)).value);
    case OnPayment(k, op) =>
      assert SameRow(h, g, PaymentLock(k));
      PutOver(h.payments, g.payments, own.payments, k, NewPayment(op, Get(seen.payments, k)).value);
    case OnKey(k, op) =>
      assert SameRow(h, g, KeyLock(k));
      PutOver(h.keys, g.keys, own.keys, k, NewKey(op, Get(seen.keys, k)).value);
    case Emit(e) =>
      assert h.journal + (own.journal + [e]) == (h.journal + own.journal) + [e];
  }

  /** The statements executed so far, run without interruption on any tables that agree on the locked
      rows, give exactly what the transaction would publish there. */
  ghost predicate Serial(g: Db, locks: set<Lock>, done: seq<Stmt>, own: Db) {
    forall h :: Agree(h, g, locks) ==> RunAll(h, done) == Some(Publish(h, own))
  }

  lemma SerialStart(g: Db, locks: set<Lock>)
    ensures Serial(g, locks, [], EMPTY) && Covered(EMPTY, locks)
  {
    forall h: Db ensures Publish(h, EMPTY) == h {
      assert h.inventory + map[] == h.inventory && h.sales + map[] == h.sales && h.orders + map[] == h.orders;
      assert h.reservations + map[] == h.reservations && h.payments + map[] == h.payments && h.keys + map[] == h.keys;
      assert h.journal + [] == h.journal;
    }
  }

  /** Executing one more statement under its lock. */
  lemma SerialStep(g: Db, locks: set<Lock>, done: seq<Stmt>, own: Db, s: Stmt)
    requires Serial(g, locks, done, own) && Hits(Publish(g, own), s)
    ensures Serial(g, locks + LocksOf(s), done + [s], Absorb(own, Publish(g, own), s))
  {
    hide RunAll, Publish, Then, Absorb, LocksOf, SameRow;
    forall h | Agree(h, g, locks + LocksOf(s))
      ensures RunAll(h, done + [s]) == Some(Publish(h, Absorb(own, Publish(g, own), s)))
    {
      assert Agree(h, g, locks) && Agree(h, g, LocksOf(s));
      RunNext(h, done, s);
      AbsorbIsExec(h, g, own, s);
    }
  }

  /** Commits of other transactions do not disturb it. */
  lemma SerialStable(g: Db, d: Db, locks: set<Lock>, done: seq<Stmt>, own: Db)
    requires Serial(g, locks, done, own) && Agree(d, g, locks)
    ensures Serial(d, locks, done, own)
  {
    hide RunAll, Publish;
    forall h | Agree(h, d, locks) ensures RunAll(h, done) == Some(Publish(h, own)) {
      forall l | l in locks ensures SameRow(h, g, l) {
        assert SameRow(h, d, l) && SameRow(d, g, l);
      }
      assert Agree(h, g, locks);
    }
  }

  lemma SerialWiden(g: Db, locks: set<Lock>, more: set<Lock>, done: seq<Stmt>, own: Db)
    requires Serial(g, locks, done, own) && Covered(own, locks) && locks <= more
    ensures Serial(g, more, done, own) && Covered(own, more)
  {
    hide RunAll, Publish, SameRow;
    forall h | Agree(h, g, more) ensures RunAll(h, done) == Some(Publish(h, own)) {
      assert Agree(h, g, locks);
    }
  }

  /** Two-phase locking: at commit, publishing equals running all statements at once on the committed tables. */
  lemma CommitIsSerial(g: Db, locks: set<Lock>, done: seq<Stmt>, own: Db)
    requires Serial(g, locks, done, own)
    ensures RunAll(g, done) == Some(Publish(g, own))
  {
    assert Agree(g, g, locks);
  }
}
