/** Any number of clients and workers over one PostgreSQL database: every transaction advances one SQL
    statement at a time, interleaved with all others, and may abort at any point. */
module Machine {
  import opened Domain
  import opened Tables
  import opened Fingerprint
  import opened Ledger
  import opened Statements
  import opened Scripts
  import opened Locking

  /** Requests after validation; MoveCall is confirm or cancel. */
  datatype Call =
    | ReserveCall(saleId: Id, userId: Id, quantity: int, key: Id)
    | MoveCall(rid: Id, to: ReservationState)
    | ExpireCall(limit: nat, at: int)
    | PayCall(oid: Id, outcome: Outcome, payKey: Id)

  predicate ValidCall(c: Call) {
    match c
    case ReserveCall(saleId, userId, q, key) =>
      saleId.text != "" && 1 <= |userId.text| <= 128 && 1 <= q <= 100 && 1 <= |key.text| <= 200
    case MoveCall(_, to) => to == Confirmed || to == Cancelled
    case ExpireCall(limit, _) => 1 <= limit <= 1000
    case PayCall(_, _, _) => true
  }

  /** What a transaction has set out to commit. `seen` is the quantity sum that was read. */
  datatype Goal =
    | Opens(w: Opening, seen: int)
    | Refuses(row: KeyRow, refusal: Refusal)
    | Loses(row: KeyRow)
    | Moves(order: Id, r: Reservation)
    | Expires(batch: seq<Due>)
    | Pays(pid: Id, reservation: Id, r: Reservation)

  datatype Phase =
    | Begun
    | Conflicted
    | Claimed(row: KeyRow)
    | Guarded(row: KeyRow)
    | SaleSeen(row: KeyRow, productId: Id, maxPerUser: int, price: int, currency: string)
    | PayClaimed(pid: Id)
    | Working(goal: Goal)

  /** `plan` are the statements still to come, `done` those executed, `own` the uncommitted row versions. */
  datatype Txn = Txn(
    call: Call, phase: Phase, plan: seq<Stmt>, done: seq<Stmt>, own: Db, locks: set<Lock>, adv: Option<(Id, Id)>)

  datatype Answer =
    | Created(receipt: Receipt)
    | Duplicate(receipt: Receipt)
    | Refused(refusal: Refusal)
    | Conflict
    | InProgress

  /** What Reserve callers were told, and which keys were purged, in order. */
  datatype Mark = Told(call: Call, answer: Answer) | Forgot(keys: set<Id>)

  /** What a payment callback is told: its own payment, the stored one of its key, or a conflict. */
  datatype PayAnswer = Settles(payment: Payment) | Repeats(payment: Payment) | Clashes

  /** What SimulatePayment callers were told. */
  datatype Slip = Slip(call: Call, answer: PayAnswer)

  datatype State = State(db: Db, txns: map<nat, Txn>, trace: seq<Mark>, slips: seq<Slip>)

  datatype Step =
    | Begin(tid: nat, call: Call)
    | Abort(tid: nat)
    | Claim(tid: nat, expiresAt: int)
    | ReadReplay(tid: nat)
    | Advise(tid: nat)
    | ReadSale(tid: nat, now: int)
    | ReadSum(tid: nat, rid: Id, oid: Id, until: int)
    | LockReservation(tid: nat, oid: Id)
    | SelectDue(tid: nat, batch: seq<Due>)
    | ClaimPayment(tid: nat, pid: Id)
    | ReplayPayment(tid: nat)
    | LockOrder(tid: nat)
    | Execute(tid: nat)
    | Commit(tid: nat)
    | CreateProduct(id: Id, product: Product, level: int)
    | UpdateProduct(id: Id, product: Product, newLevel: Option<int>)
    | CreateSale(id: Id, sale: Sale)
    | ChangeSale(id: Id, state: SaleState)
    | PurgeKeys(now: int)

  // ---------------------------------------------------------------- waiting

  /** No other transaction holds any of these rows. */
  ghost predicate Free(s: State, tid: nat, locks: set<Lock>) {
    forall u :: u in s.txns && u != tid ==> s.txns[u].locks !! locks
  }

  ghost predicate Unlocked(s: State, locks: set<Lock>) {
    forall u :: u in s.txns ==> s.txns[u].locks !! locks
  }

  /** pg_advisory_xact_lock on sale and user. */
  ghost predicate AdvisoryFree(s: State, tid: nat, pair: (Id, Id)) {
    forall u :: u in s.txns && u != tid ==> s.txns[u].adv != Some(pair)
  }

  // ---------------------------------------------------------------- one transaction's own step

  function NewTxn(call: Call): Txn {
    Txn(call, Begun, [], [], EMPTY, {}, None)
  }

  function View(g: Db, t: Txn): Db {
    Publish(g, t.own)
  }

  /** A statement that hits. */
  function Advance(g: Db, t: Txn, s: Stmt): Txn
    requires Hits(View(g, t), s)
  {
    t.(done := t.done + [s], own := Absorb(t.own, View(g, t), s), locks := t.locks + LocksOf(s))
  }

  function Refusing(t: Txn, row: KeyRow, refusal: Refusal): Txn
    requires t.call.ReserveCall?
  {
    t.(phase := Working(Refuses(row, refusal)), plan := [OnKey(t.call.key, SetResponse(Declined(refusal)))])
  }

  /** The refusal that the SELECT on sale and product leads to, if any. */
  function SaleRefusal(g: Db, saleId: Id, now: int): Option<Refusal> {
    if saleId !in g.sales || g.sales[saleId].productId !in g.products then Some(SaleNotFound)
    else
      var s := g.sales[saleId];
      if s.state != Active || now < s.startsAt || now >= s.endsAt then Some(SaleNotActive)
      else if !g.products[s.productId].active then Some(ProductInactive)
      else None
  }

  /** The SELECT on sale and product. */
  function AfterSale(g: Db, t: Txn, now: int): Txn
    requires t.call.ReserveCall? && t.phase.Guarded?
  {
    var refusal := SaleRefusal(g, t.call.saleId, now);
    if refusal.Some? then Refusing(t, t.phase.row, refusal.value)
    else
      var sale := g.sales[t.call.saleId];
      var product := g.products[sale.productId];
      t.(phase := SaleSeen(t.phase.row, sale.productId, sale.maxPerUser, product.price, product.currency))
  }

  /** The user's quantity sum. */
  ghost function AfterSum(g: Db, t: Txn, rid: Id, oid: Id, until: int): Txn
    requires t.call.ReserveCall? && ValidCall(t.call) && t.phase.SaleSeen?
  {
    var existing := Total(ActiveBy(t.call.saleId, t.call.userId), g.reservations);
    if existing + t.call.quantity > t.phase.maxPerUser then Refusing(t, t.phase.row, PurchaseLimitExceeded)
    else
      var w := OpeningFor(t.call, t.phase, rid, oid, until);
      t.(phase := Working(Opens(w, existing)), plan := OpenScript(w)[1..],
         locks := t.locks + {ReservationLock(rid), OrderLock(oid)})
  }

  /** Go's int64 product, which wraps. */
  function Wrap64(x: int): int {
    (x + 0x8000_0000_0000_0000) % 0x1_0000_0000_0000_0000 - 0x8000_0000_0000_0000
  }

  function OpeningFor(c: Call, p: Phase, rid: Id, oid: Id, until: int): Opening
    requires c.ReserveCall? && p.SaleSeen?
  {
    Opening(rid, oid, c.saleId, p.productId, c.userId, c.quantity, until, Wrap64(p.price * c.quantity), p.currency,
            c.key, p.row.expiresAt)
  }

  /** Where a missed conditional UPDATE leads; None means the code returns an error and rolls back. */
  function AfterMiss(t: Txn): Option<Txn>
    requires t.phase.Working? && t.plan != []
  {
    if t.call.ReserveCall? && t.phase.goal.Opens? && t.phase.goal.w.quantity >= 1 && t.plan[0].OnSale? then
      Some(Refusing(t, ClaimOf(t.phase.goal.w), AllocationSoldOut))
    else if t.call.ReserveCall? && t.phase.goal.Opens? && t.phase.goal.w.quantity >= 1 && t.plan[0].OnStock? then
      Some(t.(phase := Working(Loses(ClaimOf(t.phase.goal.w))),
              plan := [Emit(UnitsLost(t.call.saleId, t.call.quantity)),
                       OnKey(t.call.key, SetResponse(Declined(ProductSoldOut)))]))
    else if t.call.MoveCall? && t.plan[0].OnStock? then
      Some(t.(plan := t.plan[1..]))  // the row count of cancel's inventory update is not checked
    else None
  }

  /** replayReservation. */
  function ReplayAnswer(row: KeyRow, c: Call): Answer
    requires c.ReserveCall? && c.quantity >= 1
  {
    if row.userId != c.userId || row.fingerprint != ReservationText(c.saleId, c.userId, c.quantity) then Conflict
    else
      match row.response
      case None => InProgress
      case Some(Accepted(receipt)) => Duplicate(receipt)
      case Some(Declined(refusal)) => Refused(refusal)
  }

  /** SimulatePayment under a key that is already in the payments table. */
  function PayReplay(row: Payment, c: Call): PayAnswer
    requires c.PayCall?
  {
    if row.fingerprint != PaymentText(c.oid, c.outcome) then Clashes else Repeats(row)
  }

  function CommitAnswer(g: Goal): Answer
    requires g.Opens? || g.Refuses? || g.Loses?
  {
    match g
    case Opens(w, _) => Created(ReceiptOf(w))
    case Refuses(_, refusal) => Refused(refusal)
    case Loses(_) => Refused(ProductSoldOut)
  }

  // ---------------------------------------------------------------- the transition relation

  ghost predicate PayStateOk(outcome: Outcome, state: ReservationState) {
    && (outcome == Successful ==> state == Confirmed)
    && (outcome == Failed ==> state == Pending || state == Confirmed)
  }

  /** Rows whose time has come, no more than the limit. */
  predicate TakesDue(c: Call, batch: seq<Due>)
    requires c.ExpireCall?
  {
    |batch| <= c.limit && forall i :: 0 <= i < |batch| ==> batch[i].row.expiresAt <= c.at
  }

  function DueLocks(batch: seq<Due>): set<Lock> {
    set d | d in batch :: ReservationLock(d.rid)
  }

  /** When a step can be taken: a statement that would change a row waits for that row's lock, one that
      matches no committed row misses without waiting. */
  ghost predicate Enabled(s: State, e: Step) {
    match e
    case Begin(tid, call) => tid !in s.txns && ValidCall(call)
    case Abort(tid) => tid in s.txns
    case Claim(tid, exp) =>
      tid in s.txns && var t := s.txns[tid];
      t.call.ReserveCall? && ValidCall(t.call) && t.phase == Begun &&
      (t.call.key in s.db.keys ||
       (Free(s, tid, {KeyLock(t.call.key)}) &&
        Hits(View(s.db, t),
             OnKey(t.call.key, InsertKey(ClaimRow(t.call.saleId, t.call.userId, t.call.quantity, exp))))))
    case ReadReplay(tid) =>
      tid in s.txns && s.txns[tid].call.ReserveCall? && ValidCall(s.txns[tid].call) && s.txns[tid].phase == Conflicted
    case Advise(tid) =>
      tid in s.txns && var t := s.txns[tid];
      t.call.ReserveCall? && t.phase.Claimed? && AdvisoryFree(s, tid, (t.call.saleId, t.call.userId))
    case ReadSale(tid, _) => tid in s.txns && s.txns[tid].call.ReserveCall? && s.txns[tid].phase.Guarded?
    case ReadSum(tid, rid, oid, _) =>
      tid in s.txns && var t := s.txns[tid];
      t.call.ReserveCall? && ValidCall(t.call) && t.phase.SaleSeen? &&
      rid !in s.db.reservations && oid !in s.db.orders && Free(s, tid, {ReservationLock(rid), OrderLock(oid)})
    case LockReservation(tid, oid) =>
      tid in s.txns && var t := s.txns[tid];
      t.call.MoveCall? && t.phase == Begun && t.call.rid in s.db.reservations &&
      OrderFor(s.db.orders, oid, t.call.rid) && Free(s, tid, {ReservationLock(t.call.rid)}) &&
      ValidTransition(s.db.reservations[t.call.rid].state, t.call.to)
    case SelectDue(tid, batch) =>
      tid in s.txns && var t := s.txns[tid];
      t.call.ExpireCall? && t.phase == Begun && BatchOk(s.db, batch) && TakesDue(t.call, batch) &&
      Free(s, tid, DueLocks(batch))
    case ClaimPayment(tid, pid) =>
      tid in s.txns && var t := s.txns[tid];
      t.call.PayCall? && t.phase == Begun && t.call.payKey !in s.db.payments && t.call.oid in s.db.orders &&
      Free(s, tid, {PaymentLock(t.call.payKey)}) &&
      Hits(View(s.db, t),
           OnPayment(t.call.payKey, InsertPayment(PaymentRow(pid, t.call.oid, t.call.outcome).(status := Waiting))))
    case ReplayPayment(tid) =>
      tid in s.txns && var t := s.txns[tid];
      t.call.PayCall? && t.phase == Begun && t.call.payKey in s.db.payments
    case LockOrder(tid) =>
      tid in s.txns && var t := s.txns[tid];
      t.call.PayCall? && t.phase.PayClaimed? && t.call.oid in s.db.orders &&
      var rid := s.db.orders[t.call.oid].reservationId;
      rid in s.db.reservations && Free(s, tid, {OrderLock(t.call.oid), ReservationLock(rid)}) &&
      PayStateOk(t.call.outcome, s.db.reservations[rid].state)
    case Execute(tid) =>
      tid in s.txns && var t := s.txns[tid];
      t.phase.Working? && t.plan != [] &&
      if Hits(View(s.db, t), t.plan[0]) then Free(s, tid, LocksOf(t.plan[0])) else AfterMiss(t).Some?
    case Commit(tid) => tid in s.txns && s.txns[tid].phase.Working? && s.txns[tid].plan == []
    case CreateProduct(id, p, level) =>
      id !in s.db.products && id !in s.db.inventory && 0 <= level <= INT4_MAX && Unlocked(s, {StockLock(id)})
    case UpdateProduct(id, p, level) => CanEdit(s.db, id, level) && (level.Some? ==> Unlocked(s, {StockLock(id)}))
    case CreateSale(id, sale) => CanAddSale(s.db, id, sale) && Unlocked(s, {SaleLock(id)})
    case ChangeSale(id, state) => id in s.db.sales && Unlocked(s, {SaleLock(id)})
    case PurgeKeys(now) => Unlocked(s, set k | k in Overdue(s.db, now) :: KeyLock(k))
  }

  /** DELETE FROM idempotency_keys WHERE expires_at < now(). */
  function Overdue(db: Db, now: int): set<Id> {
    set k | k in db.keys && db.keys[k].expiresAt < now
  }

  ghost function After(s: State, e: Step): State
    requires Enabled(s, e)
  {
    match e
    case Begin(tid, call) => s.(txns := s.txns[tid := NewTxn(call)])
    case Abort(tid) => s.(txns := s.txns - {tid})
    case Claim(tid, exp) =>
      var t := s.txns[tid];
      if t.call.key in s.db.keys then s.(txns := s.txns[tid := t.(phase := Conflicted)])
      else
        var row := ClaimRow(t.call.saleId, t.call.userId, t.call.quantity, exp);
        s.(txns := s.txns[tid := Advance(s.db, t, OnKey(t.call.key, InsertKey(row))).(phase := Claimed(row))])
    case ReadReplay(tid) =>
      var t := s.txns[tid];
      if t.call.key in s.db.keys then
        s.(txns := s.txns - {tid}, trace := s.trace + [Told(t.call, ReplayAnswer(s.db.keys[t.call.key], t.call))])
      else s.(txns := s.txns - {tid})  // purged meanwhile: the code returns the driver's error
    case Advise(tid) =>
      var t := s.txns[tid];
      s.(txns := s.txns[tid := t.(adv := Some((t.call.saleId, t.call.userId)), phase := Guarded(t.phase.row))])
    case ReadSale(tid, now) =>
      s.(txns := s.txns[tid := AfterSale(s.db, s.txns[tid], now)])
    case ReadSum(tid, rid, oid, until) =>
      s.(txns := s.txns[tid := AfterSum(s.db, s.txns[tid], rid, oid, until)])
    case LockReservation(tid, oid) =>
      var t := s.txns[tid];
      var r := s.db.reservations[t.call.rid];
      s.(txns := s.txns[tid := t.(phase := Working(Moves(oid, r)), plan := MoveScript(t.call.rid, oid, r, t.call.to),
                                  locks := t.locks + {ReservationLock(t.call.rid)})])
    case SelectDue(tid, batch) =>
      var t := s.txns[tid];
      s.(txns := s.txns[tid := t.(phase := Working(Expires(batch)), plan := ExpireScript(batch),
                                  locks := t.locks + DueLocks(batch))])
    case ClaimPayment(tid, pid) =>
      var t := s.txns[tid];
      var row := PaymentRow(pid, t.call.oid, t.call.outcome).(status := Waiting);
      var claimed := Advance(s.db, t, OnPayment(t.call.payKey, InsertPayment(row)));
      s.(txns := s.txns[tid := claimed.(phase := PayClaimed(pid))])
    case ReplayPayment(tid) =>
      var t := s.txns[tid];
      s.(txns := s.txns - {tid}, slips := s.slips + [Slip(t.call, PayReplay(s.db.payments[t.call.payKey], t.call))])
    case LockOrder(tid) =>
      var t := s.txns[tid];
      var rid := s.db.orders[t.call.oid].reservationId;
      var r := s.db.reservations[rid];
      var script := PayScript(t.call.payKey, t.phase.pid, t.call.oid, rid, r, t.call.outcome);
      s.(txns := s.txns[tid := t.(phase := Working(Pays(t.phase.pid, rid, r)), plan := script[1..],
                                  locks := t.locks + {OrderLock(t.call.oid), ReservationLock(rid)})])
    case Execute(tid) =>
      var t := s.txns[tid];
      if Hits(View(s.db, t), t.plan[0]) then
        s.(txns := s.txns[tid := Advance(s.db, t, t.plan[0]).(plan := t.plan[1..])])
      else s.(txns := s.txns[tid := AfterMiss(t).value])
    case Commit(tid) =>
      var t := s.txns[tid];
      var goal := t.phase.goal;
      State(View(s.db, t), s.txns - {tid},
            if t.call.ReserveCall? && (goal.Opens? || goal.Refuses? || goal.Loses?)
            then s.trace + [Told(t.call, CommitAnswer(goal))] else s.trace,
            if t.call.PayCall? && goal.Pays?
            then s.slips + [Slip(t.call, Settles(PaymentRow(goal.pid, t.call.oid, t.call.outcome)))] else s.slips)
    case CreateProduct(id, p, level) => s.(db := AddProduct(s.db, id, p, level))
    case UpdateProduct(id, p, level) => s.(db := EditProduct(s.db, id, p, level))
    case CreateSale(id, sale) => s.(db := AddSale(s.db, id, sale))
    case ChangeSale(id, state) => s.(db := SetSaleState(s.db, id, state))
    case PurgeKeys(now) =>
      s.(db := Purge(s.db, Overdue(s.db, now)), trace := s.trace + [Forgot(Overdue(s.db, now))])
  }

  /** A run: each state follows from the one before by an enabled step. */
  ghost predicate IsRun(run: seq<State>, steps: seq<Step>) {
    && |run| == |steps| + 1
    && (forall i :: 0 <= i < |steps| ==> Enabled(run[i], steps[i]) && run[i + 1] == After(run[i], steps[i]))
  }

  /** No transaction open, nothing told; the tables are given. */
  predicate Starts(s: State, db: Db) {
    s == State(db, map[], [], [])
  }
}
