/** What every step of every interleaving keeps. */
module MachineProofs {
  import opened Domain
  import opened Tables
  import opened Ledger
  import opened LedgerProofs
  import opened Statements
  import opened Scripts
  import opened Locking
  import opened Machine

  // ---------------------------------------------------------------- what an open transaction knows

  function Pair(c: Call): (Id, Id)
    requires c.ReserveCall?
  {
    (c.saleId, c.userId)
  }

  predicate ClaimFor(c: Call, row: KeyRow) {
    c.ReserveCall? && c.quantity >= 1 && row == ClaimRow(c.saleId, c.userId, c.quantity, row.expiresAt)
  }

  predicate HasClaim(t: Txn, row: KeyRow) {
    ClaimFor(t.call, row) && t.done == [OnKey(t.call.key, InsertKey(row))]
  }

  predicate SaleStill(g: Db, saleId: Id, productId: Id, maxPerUser: int) {
    saleId in g.sales && g.sales[saleId].productId == productId && g.sales[saleId].maxPerUser == maxPerUser
  }

  predicate OpeningFits(c: Call, w: Opening) {
    c.ReserveCall? && w.quantity >= 1
    && w.saleId == c.saleId && w.userId == c.userId && w.quantity == c.quantity && w.key == c.key
  }

  /** The stale sum is still an upper bound, and within the limit. */
  ghost predicate WithinLimit(g: Db, w: Opening, seen: int) {
    && w.saleId in g.sales && g.sales[w.saleId].productId == w.productId
    && Total(ActiveBy(w.saleId, w.userId), g.reservations) <= seen
    && seen + w.quantity <= g.sales[w.saleId].maxPerUser
  }

  ghost predicate MoveKnown(g: Db, t: Txn, oid: Id, r: Reservation) {
    && t.call.MoveCall?
    && ReservationLock(t.call.rid) in t.locks && Get(g.reservations, t.call.rid) == Some(r)
    && OrderFor(g.orders, oid, t.call.rid) && ValidTransition(r.state, t.call.to)
  }

  ghost predicate PayKnown(g: Db, t: Txn, rid: Id, r: Reservation) {
    && t.call.PayCall?
    && ReservationLock(rid) in t.locks && Get(g.reservations, rid) == Some(r)
    && OrderFor(g.orders, t.call.oid, rid) && PayStateOk(t.call.outcome, r.state)
  }

  ghost predicate GoalOk(g: Db, t: Txn, goal: Goal) {
    match goal
    case Opens(w, seen) =>
      OpeningFits(t.call, w) && t.adv == Some(Pair(t.call)) && WithinLimit(g, w, seen) &&
      1 <= |t.done| && t.done + t.plan == OpenScript(w)
    case Refuses(row, refusal) =>
      ClaimFor(t.call, row) && t.done + t.plan == RefuseScript(t.call.key, row, refusal)
    case Loses(row) =>
      ClaimFor(t.call, row) && t.done + t.plan == LoseScript(t.call.key, row, t.call.saleId, t.call.quantity)
    case Moves(oid, r) => MoveKnown(g, t, oid, r) && t.done + t.plan == MoveScript(t.call.rid, oid, r, t.call.to)
    case Expires(batch) =>
      t.call.ExpireCall? && BatchOk(g, batch) && TakesDue(t.call, batch) && DueLocks(batch) <= t.locks &&
      t.done + t.plan == ExpireScript(batch)
    case Pays(pid, rid, r) =>
      PayKnown(g, t, rid, r) && 1 <= |t.done| &&
      t.done + t.plan == PayScript(t.call.payKey, pid, t.call.oid, rid, r, t.call.outcome)
  }

  ghost predicate Control(g: Db, t: Txn) {
    ValidCall(t.call) &&
    match t.phase
    case Begun => t.done == []
    case Conflicted => t.done == []
    case Claimed(row) => HasClaim(t, row)
    case Guarded(row) => HasClaim(t, row) && t.adv == Some(Pair(t.call))
    case SaleSeen(row, productId, maxPerUser, _, _) =>
      HasClaim(t, row) && t.adv == Some(Pair(t.call)) && SaleStill(g, t.call.saleId, productId, maxPerUser)
    case PayClaimed(pid) =>
      t.call.PayCall? &&
      t.done == [OnPayment(t.call.payKey,
                           InsertPayment(PaymentRow(pid, t.call.oid, t.call.outcome).(status := Waiting)))]
    case Working(goal) => GoalOk(g, t, goal)
  }

  ghost predicate TxnOk(g: Db, t: Txn) {
    Serial(g, t.locks, t.done, t.own) && Covered(t.own, t.locks) && Control(g, t)
  }

  predicate Apart(t: Txn, u: Txn) {
    t.locks !! u.locks && (t.adv.Some? ==> u.adv != t.adv)
  }

  ghost predicate Good(s: State) {
    && Inv(s.db)
    && (forall i :: i in s.txns ==> TxnOk(s.db, s.txns[i]))
    && (forall i, j :: i in s.txns && j in s.txns && i != j ==> Apart(s.txns[i], s.txns[j]))
  }

  // ---------------------------------------------------------------- rely and guarantee

  /** What every change of the committed tables leaves to everybody: rows are not deleted, the columns
      nobody updates keep their values, and only the holder of the advisory lock `who` can raise the
      active quantity of its sale and user. */
  ghost predicate Guarantee(g: Db, d: Db, who: Option<(Id, Id)>) {
    && g.inventory.Keys <= d.inventory.Keys
    && (forall s :: s in g.sales ==> SaleStill(d, s, g.sales[s].productId, g.sales[s].maxPerUser))
    && (forall o :: o in g.orders ==> OrderFor(d.orders, o, g.orders[o].reservationId))
    && (forall s, u :: who != Some((s, u)) ==>
          Total(ActiveBy(s, u), d.reservations) <= Total(ActiveBy(s, u), g.reservations))
  }

  ghost predicate Rely(g: Db, d: Db, t: Txn) {
    Agree(d, g, t.locks) && exists who :: Guarantee(g, d, who) && (who.Some? ==> t.adv != who)
  }

  lemma GoalStable(g: Db, d: Db, t: Txn, goal: Goal, who: Option<(Id, Id)>)
    requires GoalOk(g, t, goal) && Agree(d, g, t.locks) && Guarantee(g, d, who) && (who.Some? ==> t.adv != who)
    ensures GoalOk(d, t, goal)
  {
    hide OpenScript, RefuseScript, LoseScript, MoveScript, ExpireScript, PayScript;
    match goal
    case Opens(w, seen) =>
      assert SaleStill(d, w.saleId, g.sales[w.saleId].productId, g.sales[w.saleId].maxPerUser);
      assert who != Some((w.saleId, w.userId));
    case Refuses(row, refusal) =>
    case Loses(row) =>
    case Moves(oid, r) =>
      assert SameRow(d, g, ReservationLock(t.call.rid));
    case Expires(batch) =>
      forall i | 0 <= i < |batch| ensures DueOk(d, batch[i]) {
        assert DueOk(g, batch[i]) && batch[i] in batch;
        assert ReservationLock(batch[i].rid) in t.locks;
        assert SameRow(d, g, ReservationLock(batch[i].rid));
        assert SaleStill(d, batch[i].row.saleId, g.sales[batch[i].row.saleId].productId,
                         g.sales[batch[i].row.saleId].maxPerUser);
        assert OrderFor(d.orders, batch[i].oid, g.orders[batch[i].oid].reservationId);
      }
    case Pays(pid, rid, r) =>
      assert SameRow(d, g, ReservationLock(rid));
  }

  /** Whatever others commit, an open transaction's knowledge stays true. */
  lemma TxnStable(g: Db, d: Db, t: Txn)
    requires TxnOk(g, t) && Rely(g, d, t)
    ensures TxnOk(d, t)
  {
    hide Serial, Covered, GoalOk, Agree;
    SerialStable(g, d, t.locks, t.done, t.own);
    var who :| Guarantee(g, d, who) && (who.Some? ==> t.adv != who);
    if t.phase.Working? {
      GoalStable(g, d, t, t.phase.goal, who);
    }
  }

  // ---------------------------------------------------------------- three kinds of step

  predicate CatalogStep(e: Step) {
    e.CreateProduct? || e.UpdateProduct? || e.CreateSale? || e.ChangeSale?
  }

  /** Until its commit a transaction changes no table, and only a replay tells its caller anything. */
  lemma TablesStay(s: State, e: Step)
    requires Enabled(s, e) && !e.Commit? && !e.PurgeKeys? && !CatalogStep(e)
    ensures After(s, e).db == s.db
    ensures !e.ReadReplay? ==> After(s, e).trace == s.trace
    ensures !e.ReplayPayment? ==> After(s, e).slips == s.slips
  {
    hide Hits, Absorb, Publish, LocksOf, OpenScript, MoveScript, PayScript, ExpireScript, PaymentRow, ClaimRow,
         ReplayAnswer, Total;
  }

  lemma Replace(s: State, tid: nat, t: Txn)
    requires Good(s) && TxnOk(s.db, t)
    requires forall u :: u in s.txns && u != tid ==> Apart(t, s.txns[u]) && Apart(s.txns[u], t)
    ensures Good(s.(txns := s.txns[tid := t]))
  {
    hide Inv, TxnOk, Apart;
  }

  lemma Drop(s: State, tid: nat)
    requires Good(s)
    ensures Good(s.(txns := s.txns - {tid}))
  {
    hide Inv, TxnOk, Apart;
  }

  lemma Shift(s: State, d: Db)
    requires Good(s) && Inv(d)
    requires forall i :: i in s.txns ==> Rely(s.db, d, s.txns[i])
    ensures Good(s.(db := d))
  {
    hide Inv, TxnOk, Apart, Rely;
    forall i | i in s.txns ensures TxnOk(d, s.txns[i]) {
      TxnStable(s.db, d, s.txns[i]);
    }
  }

  lemma OnlyTables(s: State, trace: seq<Mark>, slips: seq<Slip>)
    requires Good(s)
    ensures Good(s.(trace := trace, slips := slips))
  {
    hide Inv, TxnOk, Apart;
  }

  // ---------------------------------------------------------------- statements never stick

  lemma PrefixRuns(db: Db, a: seq<Stmt>, b: seq<Stmt>)
    requires RunAll(db, a + b).Some? && b != []
    ensures RunAll(db, a).Some? && Hits(RunAll(db, a).value, b[0])
  {
    hide Hits, Exec;
    assert a + b == (a + [b[0]]) + b[1..];
    RunAppend(db, a + [b[0]], b[1..]);
    RunNext(db, a, b[0]);
  }

  /** Confirm and cancel: the whole list of statements runs on the committed tables. */
  lemma MoveRuns(g: Db, t: Txn, oid: Id, r: Reservation)
    requires RefsOk(g.products, g.inventory, g.sales, g.reservations) && LedgerOk(g.inventory, g.reservations)
    requires ValidCall(t.call) && MoveKnown(g, t, oid, r)
    ensures CanMove(g, t.call.rid, oid, t.call.to)
    ensures RunAll(g, MoveScript(t.call.rid, oid, r, t.call.to)) == Some(Move(g, t.call.rid, oid, t.call.to))
  {
    hide RunAll, Move, MoveScript, LedgerOk;
    assert Refers(r, g.sales) && SaleRefers(g.sales[r.saleId], g.inventory);
    GuardNeverMisses(g, t.call.rid);
    MoveScriptIsMove(g, t.call.rid, oid, t.call.to);
  }

  lemma PayRuns(g: Db, t: Txn, pid: Id, rid: Id, r: Reservation)
    requires RefsOk(g.products, g.inventory, g.sales, g.reservations) && LedgerOk(g.inventory, g.reservations)
    requires PayKnown(g, t, rid, r) && t.call.payKey !in g.payments
    ensures CanPay(g, t.call.payKey, t.call.oid, t.call.outcome)
    ensures t.call.outcome == Successful ==> CanMove(g, rid, t.call.oid, Paid)
    ensures RunAll(g, PayScript(t.call.payKey, pid, t.call.oid, rid, r, t.call.outcome))
            == Some(Pay(g, t.call.payKey, pid, t.call.oid, t.call.outcome))
  {
    hide RunAll, PayScript, LedgerOk;
    if t.call.outcome == Successful {
      GuardNeverMisses(g, rid);
      CanPayMoves(g, t.call.payKey, t.call.oid);
    }
    PayScriptIsPay(g, t.call.payKey, pid, t.call.oid, t.call.outcome);
  }

  lemma PayStartsWithKey(key: Id, pid: Id, oid: Id, rid: Id, r: Reservation, outcome: Outcome)
    ensures var ss := PayScript(key, pid, oid, rid, r, outcome);
            && ss != [] && ss[0] == OnPayment(key, InsertPayment(PaymentRow(pid, oid, outcome).(status := Waiting)))
            && [ss[0]] + ss[1..] == ss
  {
  }

  /** A payment callback that inserted its row did so because the key was new, and it still is. */
  lemma PaymentKeyIsNew(g: Db, t: Txn, pid: Id, rid: Id, r: Reservation)
    requires t.call.PayCall? && Serial(g, t.locks, t.done, t.own) && 1 <= |t.done|
    requires t.done + t.plan == PayScript(t.call.payKey, pid, t.call.oid, rid, r, t.call.outcome)
    ensures t.call.payKey !in g.payments
  {
    hide RunAll, Serial, Publish, PayScript;
    PayStartsWithKey(t.call.payKey, pid, t.call.oid, rid, r, t.call.outcome);
    CommitIsSerial(g, t.locks, t.done, t.own);
    assert [] + t.done == t.done;
    RunNothing(g);
    PrefixRuns(g, [], t.done);
    assert t.done[0] == (t.done + t.plan)[0];
  }

  predicate IsMover(t: Txn) {
    t.phase.Working? && (t.phase.goal.Moves? || t.phase.goal.Expires? || t.phase.goal.Pays?)
  }

  lemma MoverRuns(g: Db, t: Txn)
    requires Inv(g) && TxnOk(g, t) && IsMover(t)
    ensures RunAll(g, t.done + t.plan).Some?
  {
    hide Serial, Covered, LedgerOk, SalesOk, LimitOk, OrdersOk, KeysOk, JournalOk, PaymentsOk, RefsOk, RunAll;
    hide MoveKnown, MoveScript, PayScript, ExpireScript, BatchOk;
    match t.phase.goal
    case Moves(oid, r) => MoveRuns(g, t, oid, r);
    case Expires(batch) => ExpireScriptIsExpireAll(g, batch);
    case Pays(pid, rid, r) =>
      PaymentKeyIsNew(g, t, pid, rid, r);
      PayRuns(g, t, pid, rid, r);
  }

  /** Under every interleaving, no statement of confirm, cancel, expire or pay misses its row: in
      particular the `reserved >= q` guards hold, including the one whose row count cancel ignores. */
  lemma MoverNeverMisses(g: Db, t: Txn)
    requires Inv(g) && TxnOk(g, t) && IsMover(t) && t.plan != []
    ensures Hits(View(g, t), t.plan[0])
  {
    MoverRuns(g, t);
    CommitIsSerial(g, t.locks, t.done, t.own);
    PrefixRuns(g, t.done, t.plan);
  }

  // ---------------------------------------------------------------- effects meet the guarantee

  lemma GuaranteeRefl(g: Db)
    ensures Guarantee(g, g, None)
  {
  }

  lemma GuaranteeTrans(g: Db, d: Db, e: Db)
    requires Guarantee(g, d, None) && Guarantee(d, e, None)
    ensures Guarantee(g, e, None)
  {
    forall s | s in g.sales ensures SaleStill(e, s, g.sales[s].productId, g.sales[s].maxPerUser) {
      assert SaleStill(d, s, g.sales[s].productId, g.sales[s].maxPerUser);
    }
    forall o | o in g.orders ensures OrderFor(e.orders, o, g.orders[o].reservationId) {
      assert OrderFor(d.orders, o, g.orders[o].reservationId);
    }
    forall s, u ensures Total(ActiveBy(s, u), e.reservations) <= Total(ActiveBy(s, u), g.reservations) {
      assert Total(ActiveBy(s, u), d.reservations) <= Total(ActiveBy(s, u), g.reservations);
    }
  }

  lemma OpenGuarantee(g: Db, w: Opening)
    requires CanOpen(g, w)
    ensures Guarantee(g, Open(g, w), Some((w.saleId, w.userId)))
  {
    var d := Open(g, w);
    forall s, u | Some((w.saleId, w.userId)) != Some((s, u))
      ensures Total(ActiveBy(s, u), d.reservations) <= Total(ActiveBy(s, u), g.reservations)
    {
      TotalPut(ActiveBy(s, u), g.reservations, w.rid, ReservationOf(w));
    }
  }

  /** Every lifecycle edge can only lower an active quantity. */
  lemma MoveGuarantee(g: Db, rid: Id, oid: Id, to: ReservationState)
    requires CanMove(g, rid, oid, to) && g.reservations[rid].quantity >= 1
    ensures Guarantee(g, Move(g, rid, oid, to), None)
  {
    var d, r := Move(g, rid, oid, to), g.reservations[rid];
    forall s, u ensures Total(ActiveBy(s, u), d.reservations) <= Total(ActiveBy(s, u), g.reservations) {
      TotalPut(ActiveBy(s, u), g.reservations, rid, r.(state := to));
    }
  }

  lemma {:induction false} ExpireGuarantee(g: Db, batch: seq<Due>)
    requires Inv(g)
    ensures Guarantee(g, ExpireAll(g, batch), None)
  {
    hide Guarantee, LedgerOk, SalesOk, LimitOk, OrdersOk, KeysOk, JournalOk, PaymentsOk, Move;
    if batch == [] {
      GuaranteeRefl(g);
    } else {
      var last := batch[|batch| - 1];
      var before := ExpireAll(g, batch[..|batch| - 1]);
      ExpireGuarantee(g, batch[..|batch| - 1]);
      if CanMove(before, last.rid, last.oid, Expired) {
        ExpireKeepsInv(g, batch[..|batch| - 1]);
        assert Refers(before.reservations[last.rid], before.sales);
        MoveGuarantee(before, last.rid, last.oid, Expired);
        GuaranteeTrans(g, before, ExpireAll(g, batch));
      }
    }
  }

  /** Effects that leave reservations alone. */
  lemma QuietGuarantee(g: Db, d: Db)
    requires d.reservations == g.reservations
    requires g.inventory.Keys <= d.inventory.Keys
    requires forall s :: s in g.sales ==> SaleStill(d, s, g.sales[s].productId, g.sales[s].maxPerUser)
    requires forall o :: o in g.orders ==> OrderFor(d.orders, o, g.orders[o].reservationId)
    ensures Guarantee(g, d, None)
  {
  }

  lemma PayGuarantee(g: Db, key: Id, pid: Id, oid: Id, outcome: Outcome)
    requires Inv(g) && CanPay(g, key, oid, outcome)
    requires outcome == Successful ==> CanMove(g, g.orders[oid].reservationId, oid, Paid)
    ensures Guarantee(g, Pay(g, key, pid, oid, outcome), None)
  {
    hide LedgerOk, SalesOk, LimitOk, OrdersOk, KeysOk, JournalOk, PaymentsOk;
    var d := Pay(g, key, pid, oid, outcome);
    var rid := g.orders[oid].reservationId;
    if outcome == Successful {
      assert Refers(g.reservations[rid], g.sales);
      MoveGuarantee(g, rid, oid, Paid);
      var moved := Move(g, rid, oid, Paid);
      QuietGuarantee(moved, d);
      GuaranteeTrans(g, moved, d);
    } else {
      QuietGuarantee(g, d);
    }
  }

  // ---------------------------------------------------------------- what a commit does

  /** The committed tables after a finished transaction are those of one ledger effect, whose guard
      holds on the tables at commit time. */
  ghost predicate CommitsAs(g: Db, t: Txn, d: Db)
    requires t.phase.Working?
  {
    match t.phase.goal
    case Opens(w, _) =>
      OpeningFits(t.call, w) && CanOpen(g, w) && d == Open(g, w) && t.adv == Some((w.saleId, w.userId))
    case Refuses(row, refusal) =>
      ClaimFor(t.call, row) && t.call.key !in g.keys && d == Refuse(g, t.call.key, row, refusal)
    case Loses(row) =>
      ClaimFor(t.call, row) && t.call.key !in g.keys &&
      t.call.saleId in g.sales && t.call.quantity <= g.sales[t.call.saleId].remaining &&
      d == RefuseAndLose(g, t.call.key, row, t.call.saleId, t.call.quantity)
    case Moves(oid, _) =>
      t.call.MoveCall? && t.call.to != Paid && CanMove(g, t.call.rid, oid, t.call.to) &&
      d == Move(g, t.call.rid, oid, t.call.to)
    case Expires(batch) =>
      t.call.ExpireCall? && TakesDue(t.call, batch) && BatchOk(g, batch) && d == ExpireAll(g, batch)
    case Pays(pid, rid, _) =>
      t.call.PayCall? && CanPay(g, t.call.payKey, t.call.oid, t.call.outcome) &&
      (t.call.outcome == Successful ==> CanMove(g, g.orders[t.call.oid].reservationId, t.call.oid, Paid)) &&
      d == Pay(g, t.call.payKey, pid, t.call.oid, t.call.outcome)
  }

  lemma Finished(g: Db, t: Txn)
    requires Serial(g, t.locks, t.done, t.own) && t.plan == []
    ensures RunAll(g, t.done + t.plan) == Some(View(g, t))
  {
    CommitIsSerial(g, t.locks, t.done, t.own);
    assert t.done + t.plan == t.done;
  }

  lemma ReserveCommits(g: Db, t: Txn)
    requires TxnOk(g, t) && t.phase.Working? && t.plan == [] && !IsMover(t)
    ensures CommitsAs(g, t, View(g, t))
  {
    hide Serial, Covered, RunAll, Publish, LoseScript, RefuseScript, OpenScript, Open, RefuseAndLose, Refuse;
    Finished(g, t);
    match t.phase.goal
    case Opens(w, seen) =>
      OpenScriptIsOpen(g, w);
      assert CanOpen(g, w);
    case Refuses(row, refusal) => RefuseScriptIsRefuse(g, t.call.key, row, refusal);
    case Loses(row) => LoseScriptIsLose(g, t.call.key, row, t.call.saleId, t.call.quantity);
  }

  lemma MoverCommits(g: Db, t: Txn)
    requires Inv(g) && TxnOk(g, t) && t.plan == [] && IsMover(t)
    ensures CommitsAs(g, t, View(g, t))
  {
    hide RefsOk, LedgerOk, SalesOk, LimitOk, OrdersOk, KeysOk, JournalOk, PaymentsOk, CanMove, CanPay;
    hide Serial, Covered, RunAll, Publish, MoveScript, PayScript, ExpireScript, Move, ExpireAll, BatchOk, Pay;
    Finished(g, t);
    match t.phase.goal
    case Moves(oid, r) => MoveRuns(g, t, oid, r);
    case Expires(batch) => ExpireScriptIsExpireAll(g, batch);
    case Pays(pid, rid, r) =>
      PaymentKeyIsNew(g, t, pid, rid, r);
      PayRuns(g, t, pid, rid, r);
  }

  /** Refinement: however its statements were interleaved, a transaction commits as one atomic effect. */
  lemma CommitRefines(g: Db, t: Txn)
    requires Inv(g) && TxnOk(g, t) && t.phase.Working? && t.plan == []
    ensures CommitsAs(g, t, View(g, t))
  {
    hide Inv, TxnOk, CommitsAs;
    if IsMover(t) {
      MoverCommits(g, t);
    } else {
      ReserveCommits(g, t);
    }
  }

  /** Every commit keeps the invariant of the tables. */
  lemma CommitKeepsInv(g: Db, t: Txn, d: Db)
    requires Inv(g) && t.phase.Working? && CommitsAs(g, t, d)
    ensures Inv(d)
  {
    hide Inv, BatchOk, CanMove, CanOpen, Open, Refuse, Move, Pay, ExpireAll, RefuseAndLose, CanPay;
    match t.phase.goal
    case Opens(w, seen) => OpenKeepsInv(g, w);
    case Refuses(row, refusal) => RefuseKeepsInv(g, t.call.key, row, refusal);
    case Loses(row) => RefuseAndLoseKeepsInv(g, t.call.key, row, t.call.saleId, t.call.quantity);
    case Moves(oid, r) => MoveKeepsInv(g, t.call.rid, oid, t.call.to);
    case Expires(batch) => ExpireKeepsInv(g, batch);
    case Pays(pid, rid, r) => PayKeepsInv(g, t.call.payKey, pid, t.call.oid, t.call.outcome);
  }

  function Raises(t: Txn): Option<(Id, Id)> {
    if t.phase.Working? && t.phase.goal.Opens? then t.adv else None
  }

  lemma CommitGuarantee(g: Db, t: Txn, d: Db)
    requires Inv(g) && t.phase.Working? && CommitsAs(g, t, d)
    ensures Guarantee(g, d, Raises(t))
  {
    hide Guarantee, BatchOk, CanMove, CanOpen, Open, Move, Pay, ExpireAll, CanPay, RefuseAndLose, Refuse;
    hide LedgerOk, SalesOk, LimitOk, OrdersOk, KeysOk, JournalOk, PaymentsOk;
    match t.phase.goal
    case Opens(w, seen) => OpenGuarantee(g, w);
    case Refuses(row, refusal) => RefuseGuarantee(g, t.call.key, row, refusal);
    case Loses(row) => LoseGuarantee(g, t.call.key, row, t.call.saleId, t.call.quantity);
    case Moves(oid, r) =>
      MoveGuaranteeByRefs(g, t.call.rid, oid, t.call.to);
    case Expires(batch) => ExpireGuarantee(g, batch);
    case Pays(pid, rid, r) => PayGuarantee(g, t.call.payKey, pid, t.call.oid, t.call.outcome);
  }

  lemma MoveGuaranteeByRefs(g: Db, rid: Id, oid: Id, to: ReservationState)
    requires RefsOk(g.products, g.inventory, g.sales, g.reservations) && CanMove(g, rid, oid, to)
    ensures Guarantee(g, Move(g, rid, oid, to), None)
  {
    assert Refers(g.reservations[rid], g.sales);
    MoveGuarantee(g, rid, oid, to);
  }

  lemma RefuseGuarantee(g: Db, key: Id, row: KeyRow, refusal: Refusal)
    ensures Guarantee(g, Refuse(g, key, row, refusal), None)
  {
  }

  lemma LoseGuarantee(g: Db, key: Id, row: KeyRow, saleId: Id, q: int)
    requires saleId in g.sales
    ensures Guarantee(g, RefuseAndLose(g, key, row, saleId, q), None)
  {
  }

  // ---------------------------------------------------------------- every step keeps Good

  lemma GoodCommit(s: State, tid: nat)
    requires Good(s) && Enabled(s, Commit(tid))
    ensures Good(After(s, Commit(tid)))
  {
    hide Inv, TxnOk, Guarantee, CommitsAs, Agree, Covered;
    var t := s.txns[tid];
    var d := View(s.db, t);
    CommitRefines(s.db, t);
    CommitKeepsInv(s.db, t, d);
    CommitGuarantee(s.db, t, d);
    var rest := s.(txns := s.txns - {tid});
    Drop(s, tid);
    forall i | i in rest.txns ensures Rely(s.db, d, rest.txns[i]) {
      assert Apart(t, s.txns[i]) && Apart(s.txns[i], t);
      CommitAgrees(s.db, t, s.txns[i]);
    }
    Shift(rest, d);
    OnlyTables(rest.(db := d), After(s, Commit(tid)).trace, After(s, Commit(tid)).slips);
  }

  lemma CommitAgrees(g: Db, t: Txn, u: Txn)
    requires TxnOk(g, t) && t.locks !! u.locks
    ensures Agree(View(g, t), g, u.locks)
  {
    PublishKeepsOthers(g, t.own, t.locks, u.locks);
  }

  /** A catalog or purge step, which takes no longer than one statement. */
  lemma GoodTables(s: State, d: Db, touched: set<Lock>)
    requires Good(s) && Inv(d) && Guarantee(s.db, d, None) && Unlocked(s, touched)
    requires forall l :: l !in touched ==> SameRow(d, s.db, l)
    ensures Good(s.(db := d))
  {
    hide Inv, TxnOk, Guarantee, SameRow, Apart;
    forall i | i in s.txns ensures Rely(s.db, d, s.txns[i]) {
    }
    Shift(s, d);
  }

  lemma Update(s: State, tid: nat, t: Txn, extra: set<Lock>)
    requires Good(s) && tid in s.txns && TxnOk(s.db, t)
    requires t.locks == s.txns[tid].locks + extra && Free(s, tid, extra)
    requires t.adv == s.txns[tid].adv || (t.adv.Some? && AdvisoryFree(s, tid, t.adv.value))
    ensures Good(s.(txns := s.txns[tid := t]))
  {
    hide Inv, TxnOk;
    forall u | u in s.txns && u != tid ensures Apart(t, s.txns[u]) && Apart(s.txns[u], t) {
      assert Apart(s.txns[tid], s.txns[u]) && Apart(s.txns[u], s.txns[tid]);
    }
    Replace(s, tid, t);
  }

  lemma Nothing(s: State, tid: nat)
    ensures Free(s, tid, {})
    ensures tid in s.txns ==> s.txns[tid].locks + {} == s.txns[tid].locks
  {
  }

  lemma GoodBegin(s: State, tid: nat, call: Call)
    requires Good(s) && Enabled(s, Begin(tid, call))
    ensures Good(After(s, Begin(tid, call)))
  {
    hide Inv, Serial, Covered;
    SerialStart(s.db, {});
    Replace(s, tid, NewTxn(call));
  }

  /** One executed statement keeps the locking discipline. */
  lemma AdvanceOk(g: Db, t: Txn, st: Stmt)
    requires Serial(g, t.locks, t.done, t.own) && Covered(t.own, t.locks) && Hits(View(g, t), st)
    ensures var n := Advance(g, t, st); Serial(g, n.locks, n.done, n.own) && Covered(n.own, n.locks)
  {
    hide Serial, Covered;
    SerialStep(g, t.locks, t.done, t.own, st);
    AbsorbCovered(t.own, View(g, t), st, t.locks);
  }

  lemma GoodClaim(s: State, tid: nat, exp: int)
    requires Good(s) && Enabled(s, Claim(tid, exp))
    ensures Good(After(s, Claim(tid, exp)))
  {
    hide Inv, Serial, Covered, Hits, Absorb, Publish, Apart, Free;
    var t := s.txns[tid];
    assert TxnOk(s.db, t);
    if t.call.key in s.db.keys {
      Nothing(s, tid);
      Update(s, tid, t.(phase := Conflicted), {});
    } else {
      var row := ClaimRow(t.call.saleId, t.call.userId, t.call.quantity, exp);
      var st := OnKey(t.call.key, InsertKey(row));
      AdvanceOk(s.db, t, st);
      var n := Advance(s.db, t, st).(phase := Claimed(row));
      assert n.done == [] + [st] == [st];
      Update(s, tid, n, {KeyLock(t.call.key)});
    }
  }

  lemma GoodAdvise(s: State, tid: nat)
    requires Good(s) && Enabled(s, Advise(tid))
    ensures Good(After(s, Advise(tid)))
  {
    hide Inv, Serial, Covered, Apart, Free;
    var t := s.txns[tid];
    assert TxnOk(s.db, t);
    Nothing(s, tid);
    Update(s, tid, t.(adv := Some(Pair(t.call)), phase := Guarded(t.phase.row)), {});
  }

  lemma RefusingOk(g: Db, t: Txn, row: KeyRow, refusal: Refusal)
    requires Serial(g, t.locks, t.done, t.own) && Covered(t.own, t.locks) && ValidCall(t.call) && HasClaim(t, row)
    ensures TxnOk(g, Refusing(t, row, refusal))
  {
    hide Serial, Covered;
    var n := Refusing(t, row, refusal);
    assert n.done + n.plan == RefuseScript(t.call.key, row, refusal);
  }

  lemma GoodReadSale(s: State, tid: nat, now: int)
    requires Good(s) && Enabled(s, ReadSale(tid, now))
    ensures Good(After(s, ReadSale(tid, now)))
  {
    hide Inv, Serial, Covered, Apart, Free;
    var t := s.txns[tid];
    assert TxnOk(s.db, t);
    Nothing(s, tid);
    var refusal := SaleRefusal(s.db, t.call.saleId, now);
    if refusal.Some? {
      RefusingOk(s.db, t, t.phase.row, refusal.value);
      Update(s, tid, Refusing(t, t.phase.row, refusal.value), {});
    } else {
      var sale := s.db.sales[t.call.saleId];
      var product := s.db.products[sale.productId];
      var seen := SaleSeen(t.phase.row, sale.productId, sale.maxPerUser, product.price, product.currency);
      Update(s, tid, t.(phase := seen), {});
    }
  }

  /** The sum is read under the advisory lock, so from here on it can only be an upper bound. */
  lemma GoodReadSum(s: State, tid: nat, rid: Id, oid: Id, until: int)
    requires Good(s) && Enabled(s, ReadSum(tid, rid, oid, until))
    ensures Good(After(s, ReadSum(tid, rid, oid, until)))
  {
    hide Inv, Serial, Covered, Apart, Free;
    var t := s.txns[tid];
    assert TxnOk(s.db, t);
    var existing := Total(ActiveBy(t.call.saleId, t.call.userId), s.db.reservations);
    if existing + t.call.quantity > t.phase.maxPerUser {
      Nothing(s, tid);
      RefusingOk(s.db, t, t.phase.row, PurchaseLimitExceeded);
      Update(s, tid, Refusing(t, t.phase.row, PurchaseLimitExceeded), {});
    } else {
      var w := OpeningFor(t.call, t.phase, rid, oid, until);
      var ids := {ReservationLock(rid), OrderLock(oid)};
      var n := t.(phase := Working(Opens(w, existing)), plan := OpenScript(w)[1..], locks := t.locks + ids);
      SerialWiden(s.db, t.locks, n.locks, t.done, t.own);
      assert n.done + n.plan == OpenScript(w);
      Update(s, tid, n, ids);
    }
  }

  lemma GoodLockReservation(s: State, tid: nat, oid: Id)
    requires Good(s) && Enabled(s, LockReservation(tid, oid))
    ensures Good(After(s, LockReservation(tid, oid)))
  {
    hide Inv, Serial, Covered, Apart, Free, MoveScript;
    var t := s.txns[tid];
    assert TxnOk(s.db, t);
    var r := s.db.reservations[t.call.rid];
    var n := t.(phase := Working(Moves(oid, r)), plan := MoveScript(t.call.rid, oid, r, t.call.to),
                locks := t.locks + {ReservationLock(t.call.rid)});
    SerialWiden(s.db, t.locks, n.locks, t.done, t.own);
    assert n.done + n.plan == n.plan;
    Update(s, tid, n, {ReservationLock(t.call.rid)});
  }

  lemma GoodSelectDue(s: State, tid: nat, batch: seq<Due>)
    requires Good(s) && Enabled(s, SelectDue(tid, batch))
    ensures Good(After(s, SelectDue(tid, batch)))
  {
    hide Inv, Serial, Covered, Apart, Free, ExpireScript, BatchOk, DueLocks;
    var t := s.txns[tid];
    assert TxnOk(s.db, t);
    var n := t.(phase := Working(Expires(batch)), plan := ExpireScript(batch), locks := t.locks + DueLocks(batch));
    SerialWiden(s.db, t.locks, n.locks, t.done, t.own);
    assert n.done + n.plan == n.plan;
    Update(s, tid, n, DueLocks(batch));
  }

  lemma GoodClaimPayment(s: State, tid: nat, pid: Id)
    requires Good(s) && Enabled(s, ClaimPayment(tid, pid))
    ensures Good(After(s, ClaimPayment(tid, pid)))
  {
    hide Inv, Serial, Covered, Hits, Absorb, Publish, Apart, Free;
    var t := s.txns[tid];
    assert TxnOk(s.db, t);
    var st := OnPayment(t.call.payKey, InsertPayment(PaymentRow(pid, t.call.oid, t.call.outcome).(status := Waiting)));
    AdvanceOk(s.db, t, st);
    var n := Advance(s.db, t, st).(phase := PayClaimed(pid));
    assert n.done == [] + [st] == [st];
    Update(s, tid, n, {PaymentLock(t.call.payKey)});
  }

  function LockedPayer(t: Txn, rid: Id, r: Reservation): Txn
    requires t.call.PayCall? && t.phase.PayClaimed?
  {
    var script := PayScript(t.call.payKey, t.phase.pid, t.call.oid, rid, r, t.call.outcome);
    t.(phase := Working(Pays(t.phase.pid, rid, r)), plan := if script == [] then [] else script[1..],
       locks := t.locks + {OrderLock(t.call.oid), ReservationLock(rid)})
  }

  lemma LockedPayerOk(g: Db, t: Txn, rid: Id, r: Reservation)
    requires TxnOk(g, t) && t.call.PayCall? && t.phase.PayClaimed?
    requires OrderFor(g.orders, t.call.oid, rid) && Get(g.reservations, rid) == Some(r)
    requires PayStateOk(t.call.outcome, r.state)
    ensures TxnOk(g, LockedPayer(t, rid, r))
  {
    hide Serial, Covered, PayScript, PaymentRow;
    PayStartsWithKey(t.call.payKey, t.phase.pid, t.call.oid, rid, r, t.call.outcome);
    SerialWiden(g, t.locks, LockedPayer(t, rid, r).locks, t.done, t.own);
  }

  lemma GoodLockOrder(s: State, tid: nat)
    requires Good(s) && Enabled(s, LockOrder(tid))
    ensures Good(After(s, LockOrder(tid)))
  {
    hide Inv, TxnOk, Apart, Free, PayScript;
    var t := s.txns[tid];
    assert TxnOk(s.db, t);
    var rid := s.db.orders[t.call.oid].reservationId;
    var r := s.db.reservations[rid];
    LockedPayerOk(s.db, t, rid, r);
    PayStartsWithKey(t.call.payKey, t.phase.pid, t.call.oid, rid, r, t.call.outcome);
    Update(s, tid, LockedPayer(t, rid, r), {OrderLock(t.call.oid), ReservationLock(rid)});
  }

  lemma SkipHead(t: Txn, st: Stmt)
    requires t.plan != [] && st == t.plan[0]
    ensures (t.done + [st]) + t.plan[1..] == t.done + t.plan
  {
  }

  lemma AdvanceKeepsControl(g: Db, t: Txn)
    requires Control(g, t) && t.phase.Working? && t.plan != [] && Hits(View(g, t), t.plan[0])
    ensures Control(g, Advance(g, t, t.plan[0]).(plan := t.plan[1..]))
  {
    hide Hits, Absorb, Publish, LocksOf, BatchOk, WithinLimit, DueLocks;
    hide OpenScript, RefuseScript, LoseScript, MoveScript, ExpireScript, PayScript;
    SkipHead(t, t.plan[0]);
  }

  /** A missed decrement turns the reservation into a refusal; on the second one the first stays written. */
  lemma MissOk(g: Db, t: Txn)
    requires TxnOk(g, t) && t.phase.Working? && t.phase.goal.Opens? && t.plan != [] && AfterMiss(t).Some?
    ensures TxnOk(g, AfterMiss(t).value)
  {
    hide Serial, Covered, WithinLimit;
    var n := AfterMiss(t).value;
    var w := t.phase.goal.w;
    var ss := OpenScript(w);
    assert t.plan[0] == ss[|t.done|];
    if t.plan[0].OnSale? {
      assert |t.done| == 1;
      assert t.done == ss[..1];
      assert n.done + n.plan == RefuseScript(t.call.key, ClaimOf(w), AllocationSoldOut);
    } else {
      assert |t.done| == 2;
      assert t.done == ss[..2];
      assert n.done + n.plan == LoseScript(t.call.key, ClaimOf(w), t.call.saleId, t.call.quantity);
    }
  }

  lemma GoodExecute(s: State, tid: nat)
    requires Good(s) && Enabled(s, Execute(tid))
    ensures Good(After(s, Execute(tid)))
  {
    hide Inv, Hits, Absorb, Publish, Apart, Free, LocksOf, Serial, Covered, GoalOk, AfterMiss;
    var t := s.txns[tid];
    assert TxnOk(s.db, t);
    if Hits(View(s.db, t), t.plan[0]) {
      AdvanceOk(s.db, t, t.plan[0]);
      AdvanceKeepsControl(s.db, t);
      Update(s, tid, Advance(s.db, t, t.plan[0]).(plan := t.plan[1..]), LocksOf(t.plan[0]));
    } else {
      if IsMover(t) {
        MoverNeverMisses(s.db, t);
      }
      OnlyOpensMiss(s.db, t);
      Nothing(s, tid);
      MissOk(s.db, t);
      MissKeepsLocks(t);
      Update(s, tid, AfterMiss(t).value, {});
    }
  }

  lemma OnlyOpensMiss(g: Db, t: Txn)
    requires Control(g, t) && t.phase.Working? && t.plan != [] && !IsMover(t) && AfterMiss(t).Some?
    ensures t.phase.goal.Opens?
  {
  }

  lemma MissKeepsLocks(t: Txn)
    requires t.phase.Working? && t.plan != [] && AfterMiss(t).Some?
    ensures AfterMiss(t).value.locks == t.locks && AfterMiss(t).value.adv == t.adv
  {
  }

  // ---------------------------------------------------------------- catalog and purge steps

  lemma GoodCreateProduct(s: State, id: Id, p: Product, level: int)
    requires Good(s) && Enabled(s, CreateProduct(id, p, level))
    ensures Good(After(s, CreateProduct(id, p, level)))
  {
    hide Inv, TxnOk, Apart, Unlocked;
    AddProductKeepsInv(s.db, id, p, level);
    QuietGuarantee(s.db, AddProduct(s.db, id, p, level));
    GoodTables(s, AddProduct(s.db, id, p, level), {StockLock(id)});
  }

  lemma GoodUpdateProduct(s: State, id: Id, p: Product, level: Option<int>)
    requires Good(s) && Enabled(s, UpdateProduct(id, p, level))
    ensures Good(After(s, UpdateProduct(id, p, level)))
  {
    hide Inv, TxnOk, Apart;
    EditProductKeepsInv(s.db, id, p, level);
    QuietGuarantee(s.db, EditProduct(s.db, id, p, level));
    GoodTables(s, EditProduct(s.db, id, p, level), if level.Some? then {StockLock(id)} else {});
  }

  lemma GoodCreateSale(s: State, id: Id, sale: Sale)
    requires Good(s) && Enabled(s, CreateSale(id, sale))
    ensures Good(After(s, CreateSale(id, sale)))
  {
    hide Inv, TxnOk, Apart, Unlocked;
    AddSaleKeepsInv(s.db, id, sale);
    QuietGuarantee(s.db, AddSale(s.db, id, sale));
    GoodTables(s, AddSale(s.db, id, sale), {SaleLock(id)});
  }

  lemma GoodChangeSale(s: State, id: Id, state: SaleState)
    requires Good(s) && Enabled(s, ChangeSale(id, state))
    ensures Good(After(s, ChangeSale(id, state)))
  {
    hide Inv, TxnOk, Apart, Unlocked;
    SetSaleStateKeepsInv(s.db, id, state);
    QuietGuarantee(s.db, SetSaleState(s.db, id, state));
    GoodTables(s, SetSaleState(s.db, id, state), {SaleLock(id)});
  }

  lemma GoodPurge(s: State, now: int)
    requires Good(s) && Enabled(s, PurgeKeys(now))
    ensures Good(After(s, PurgeKeys(now)))
  {
    hide Inv, TxnOk, Apart, Unlocked;
    var gone := Overdue(s.db, now);
    var d := Purge(s.db, gone);
    PurgeKeepsInv(s.db, gone);
    QuietGuarantee(s.db, d);
    var touched := set k | k in gone :: KeyLock(k);
    forall l | l !in touched ensures SameRow(d, s.db, l) {
      assert l.KeyLock? && l.k in gone ==> l in touched;
    }
    GoodTables(s, d, touched);
    OnlyTables(s.(db := d), s.trace + [Forgot(gone)], s.slips);
  }

  lemma GoodReplay(s: State, tid: nat)
    requires Good(s) && Enabled(s, ReadReplay(tid))
    ensures Good(After(s, ReadReplay(tid)))
  {
    hide Inv, TxnOk, Apart;
    Drop(s, tid);
    OnlyTables(s.(txns := s.txns - {tid}), After(s, ReadReplay(tid)).trace, s.slips);
  }

  lemma GoodReplayPayment(s: State, tid: nat)
    requires Good(s) && Enabled(s, ReplayPayment(tid))
    ensures Good(After(s, ReplayPayment(tid)))
  {
    hide Inv, TxnOk, Apart;
    Drop(s, tid);
    OnlyTables(s.(txns := s.txns - {tid}), s.trace, After(s, ReplayPayment(tid)).slips);
  }

  /** The inductive step: every step of every transaction keeps the invariant. */
  lemma StepKeepsGood(s: State, e: Step)
    requires Good(s) && Enabled(s, e)
    ensures Good(After(s, e))
  {
    hide Good, Enabled, After;
    match e
    case Begin(tid, call) => GoodBegin(s, tid, call);
    case Abort(tid) => GoodAbort(s, tid);
    case Claim(tid, exp) => GoodClaim(s, tid, exp);
    case ReadReplay(tid) => GoodReplay(s, tid);
    case Advise(tid) => GoodAdvise(s, tid);
    case ReadSale(tid, now) => GoodReadSale(s, tid, now);
    case ReadSum(tid, rid, oid, until) => GoodReadSum(s, tid, rid, oid, until);
    case LockReservation(tid, oid) => GoodLockReservation(s, tid, oid);
    case SelectDue(tid, batch) => GoodSelectDue(s, tid, batch);
    case ClaimPayment(tid, pid) => GoodClaimPayment(s, tid, pid);
    case ReplayPayment(tid) => GoodReplayPayment(s, tid);
    case LockOrder(tid) => GoodLockOrder(s, tid);
    case Execute(tid) => GoodExecute(s, tid);
    case Commit(tid) => GoodCommit(s, tid);
    case CreateProduct(id, p, level) => GoodCreateProduct(s, id, p, level);
    case UpdateProduct(id, p, level) => GoodUpdateProduct(s, id, p, level);
    case CreateSale(id, sale) => GoodCreateSale(s, id, sale);
    case ChangeSale(id, state) => GoodChangeSale(s, id, state);
    case PurgeKeys(now) => GoodPurge(s, now);
  }

  lemma GoodAbort(s: State, tid: nat)
    requires Good(s) && Enabled(s, Abort(tid))
    ensures Good(After(s, Abort(tid)))
  {
    Drop(s, tid);
  }

  /** Over whole runs, from any tables that satisfy the invariant. */
  lemma {:induction false} RunsKeepGood(run: seq<State>, steps: seq<Step>, db: Db)
    requires IsRun(run, steps) && Starts(run[0], db) && Inv(db)
    ensures forall i :: 0 <= i < |run| ==> Good(run[i])
    decreases |steps|
  {
    hide Inv, Good, Enabled, After;
    if steps == [] {
      StartIsGood(run[0], db);
    } else {
      var n := |steps| - 1;
      assert IsRun(run[..n + 1], steps[..n]);
      RunsKeepGood(run[..n + 1], steps[..n], db);
      StepKeepsGood(run[n], steps[n]);
    }
  }

  lemma StartIsGood(s: State, db: Db)
    requires Starts(s, db) && Inv(db)
    ensures Good(s)
  {
  }
}
