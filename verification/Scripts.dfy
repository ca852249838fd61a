/** The statement list of each transaction, and the committed effect it amounts to when it runs alone. */
module Scripts {
  import opened Domain
  import opened Tables
  import opened Fingerprint
  import opened Ledger
  import opened LedgerProofs
  import opened Statements

  // ---------------------------------------------------------------- Reserve

  function ClaimOf(w: Opening): KeyRow
    requires w.quantity >= 1
  {
    ClaimRow(w.saleId, w.userId, w.quantity, w.keyExpiresAt)
  }

  function OpenScript(w: Opening): seq<Stmt>
    requires w.quantity >= 1
  {
    [OnKey(w.key, InsertKey(ClaimOf(w))),
     OnSale(w.saleId, Spend(w.quantity)),
     OnStock(w.productId, Take(w.quantity)),
     OnReservation(w.rid, InsertReservation(ReservationOf(w))),
     OnOrder(w.oid, InsertOrder(OrderOf(w))),
     Emit(Opened(w.rid, w.productId, w.quantity)),
     OnKey(w.key, SetResponse(Accepted(ReceiptOf(w))))]
  }

  /** finishReservationError after the claim. */
  function RefuseScript(key: Id, row: KeyRow, refusal: Refusal): seq<Stmt> {
    [OnKey(key, InsertKey(row)), OnKey(key, SetResponse(Declined(refusal)))]
  }

  /** finishReservationError after the sale was already decremented. */
  function LoseScript(key: Id, row: KeyRow, saleId: Id, q: int): seq<Stmt> {
    [OnKey(key, InsertKey(row)), OnSale(saleId, Spend(q)), Emit(UnitsLost(saleId, q)),
     OnKey(key, SetResponse(Declined(ProductSoldOut)))]
  }

  /** The claim and the two guarded decrements. */
  function Decremented(db: Db, w: Opening): Db
    requires w.quantity >= 1 && w.saleId in db.sales && w.productId in db.inventory
  {
    var s, t := db.sales[w.saleId], db.inventory[w.productId];
    db.(keys := db.keys[w.key := ClaimOf(w)],
        sales := db.sales[w.saleId := s.(remaining := s.remaining - w.quantity)],
        inventory := db.inventory[w.productId :=
          t.(available := t.available - w.quantity, reserved := t.reserved + w.quantity)])
  }

  lemma OpenBegins(w: Opening)
    requires w.quantity >= 1
    ensures OpenScript(w)[..3]
            == [OnKey(w.key, InsertKey(ClaimOf(w))), OnSale(w.saleId, Spend(w.quantity)),
                OnStock(w.productId, Take(w.quantity))]
  {
  }

  lemma DecrementsRun(db: Db, w: Opening)
    requires w.quantity >= 1 && RunAll(db, OpenScript(w)[..3]).Some?
    ensures w.key !in db.keys
    ensures w.saleId in db.sales && db.sales[w.saleId].state == Active && db.sales[w.saleId].remaining >= w.quantity
    ensures w.productId in db.inventory && db.inventory[w.productId].available >= w.quantity
    ensures RunAll(db, OpenScript(w)[..3]) == Some(Decremented(db, w))
  {
    hide RunAll, Then, OpenScript, ClaimOf;
    var claim, spend, take := OnKey(w.key, InsertKey(ClaimOf(w))), OnSale(w.saleId, Spend(w.quantity)),
      OnStock(w.productId, Take(w.quantity));
    OpenBegins(w);
    Run4(db, claim, spend, take, take);
    ThenInsertKey(db, w.key, ClaimOf(w));
    ThenMissed(spend);
    ThenMissed(take);
    var d := db.(keys := db.keys[w.key := ClaimOf(w)]);
    ThenSale(d, w.saleId, Spend(w.quantity));
    var s := NewSale(Spend(w.quantity), Get(d.sales, w.saleId));
    assert s.Some?;
    ThenStock(d.(sales := d.sales[w.saleId := s.value]), w.productId, Take(w.quantity));
  }

  lemma AcceptedIsAnswered(w: Opening)
    requires w.quantity >= 1
    ensures AcceptedRow(w) == ClaimOf(w).(response := Some(Accepted(ReceiptOf(w))))
  {
  }

  lemma InsertsRun(db: Db, w: Opening)
    requires w.quantity >= 1 && w.saleId in db.sales && w.productId in db.inventory
    requires RunAll(Decremented(db, w), OpenScript(w)[3..]).Some?
    ensures w.rid !in db.reservations && w.oid !in db.orders && w.amount >= 0
    ensures RunAll(Decremented(db, w), OpenScript(w)[3..]) == Some(Open(db, w))
  {
    hide RunAll, Then, ClaimOf, AcceptedRow;
    var ss := OpenScript(w);
    assert ss[3..] == [ss[3], ss[4], ss[5], ss[6]];
    var d := Decremented(db, w);
    Run4(d, ss[3], ss[4], ss[5], ss[6]);
    ThenReservation(d, w.rid, InsertReservation(ReservationOf(w)));
    ThenMissed(ss[4]);
    ThenMissed(ss[5]);
    ThenMissed(ss[6]);
    d := d.(reservations := d.reservations[w.rid := ReservationOf(w)]);
    ThenOrder(d, w.oid, InsertOrder(OrderOf(w)));
    d := d.(orders := d.orders[w.oid := OrderOf(w)]);
    ThenEmit(d, Opened(w.rid, w.productId, w.quantity));
    d := d.(journal := d.journal + [Opened(w.rid, w.productId, w.quantity)]);
    ThenSetResponse(d, w.key, Accepted(ReceiptOf(w)));
    AcceptedIsAnswered(w);
    assert db.keys[w.key := ClaimOf(w)][w.key := AcceptedRow(w)] == db.keys[w.key := AcceptedRow(w)];
  }

  /** Reserve's statements succeed only where the database guards hold, and then they amount to Open. */
  lemma OpenScriptIsOpen(db: Db, w: Opening)
    requires w.quantity >= 1 && RunAll(db, OpenScript(w)).Some?
    ensures w.rid !in db.reservations && w.oid !in db.orders && w.key !in db.keys && w.amount >= 0
    ensures w.saleId in db.sales && db.sales[w.saleId].state == Active && db.sales[w.saleId].remaining >= w.quantity
    ensures w.productId in db.inventory && db.inventory[w.productId].available >= w.quantity
    ensures RunAll(db, OpenScript(w)) == Some(Open(db, w))
  {
    var ss := OpenScript(w);
    assert |ss| == 7;
    hide RunAll, OpenScript, Decremented, Open;
    RunAppend(db, ss[..3], ss[3..]);
    assert ss[..3] + ss[3..] == ss;
    DecrementsRun(db, w);
    InsertsRun(db, w);
  }

  lemma RefuseScriptIsRefuse(db: Db, key: Id, row: KeyRow, refusal: Refusal)
    requires RunAll(db, RefuseScript(key, row, refusal)).Some?
    ensures key !in db.keys && RunAll(db, RefuseScript(key, row, refusal)) == Some(Refuse(db, key, row, refusal))
  {
    hide RunAll;
    var ss := RefuseScript(key, row, refusal);
    Run2(db, ss[0], ss[1]);
    var answered := row.(response := Some(Declined(refusal)));
    assert db.keys[key := row][key := answered] == db.keys[key := answered];
  }

  lemma LoseScriptIsLose(db: Db, key: Id, row: KeyRow, saleId: Id, q: int)
    requires RunAll(db, LoseScript(key, row, saleId, q)).Some?
    ensures key !in db.keys && saleId in db.sales && db.sales[saleId].state == Active && q <= db.sales[saleId].remaining
    ensures RunAll(db, LoseScript(key, row, saleId, q)) == Some(RefuseAndLose(db, key, row, saleId, q))
  {
    hide RunAll, Then;
    var ss := LoseScript(key, row, saleId, q);
    Run4(db, ss[0], ss[1], ss[2], ss[3]);
    ThenInsertKey(db, key, row);
    ThenMissed(ss[1]);
    ThenMissed(ss[2]);
    ThenMissed(ss[3]);
    var d := db.(keys := db.keys[key := row]);
    ThenSale(d, saleId, Spend(q));
    var s := NewSale(Spend(q), Get(d.sales, saleId));
    assert s.Some?;
    d := d.(sales := d.sales[saleId := s.value]);
    ThenEmit(d, UnitsLost(saleId, q));
    ThenSetResponse(d.(journal := d.journal + [UnitsLost(saleId, q)]), key, Declined(ProductSoldOut));
    var answered := row.(response := Some(Declined(ProductSoldOut)));
    assert db.keys[key := row][key := answered] == db.keys[key := answered];
  }

  // The other way round: where the guards hold, no statement misses.

  lemma OpenRuns(g: Db, w: Opening)
    requires w.quantity >= 1 && w.amount >= 0 && w.key !in g.keys && w.rid !in g.reservations && w.oid !in g.orders
    requires w.saleId in g.sales && g.sales[w.saleId].state == Active && g.sales[w.saleId].remaining >= w.quantity
    requires w.productId in g.inventory && g.inventory[w.productId].available >= w.quantity
    ensures RunAll(g, OpenScript(w)).Some?
  {
    hide RunAll, Then, ClaimOf;
    var ss := OpenScript(w);
    assert ss == [ss[0], ss[1], ss[2]] + [ss[3], ss[4], ss[5], ss[6]];
    RunAppend(g, [ss[0], ss[1], ss[2]], [ss[3], ss[4], ss[5], ss[6]]);
    var d := g;
    Run4(d, ss[0], ss[1], ss[2], ss[2]);
    ThenInsertKey(d, w.key, ClaimOf(w));
    d := d.(keys := d.keys[w.key := ClaimOf(w)]);
    ThenSale(d, w.saleId, Spend(w.quantity));
    d := d.(sales := d.sales[w.saleId := d.sales[w.saleId].(remaining := d.sales[w.saleId].remaining - w.quantity)]);
    ThenStock(d, w.productId, Take(w.quantity));
    var t := d.inventory[w.productId];
    d := d.(inventory := d.inventory[w.productId :=
                                     t.(available := t.available - w.quantity, reserved := t.reserved + w.quantity)]);
    Run4(d, ss[3], ss[4], ss[5], ss[6]);
    ThenReservation(d, w.rid, InsertReservation(ReservationOf(w)));
    d := d.(reservations := d.reservations[w.rid := ReservationOf(w)]);
    ThenOrder(d, w.oid, InsertOrder(OrderOf(w)));
    d := d.(orders := d.orders[w.oid := OrderOf(w)]);
    ThenEmit(d, Opened(w.rid, w.productId, w.quantity));
    ThenSetResponse(d.(journal := d.journal + [Opened(w.rid, w.productId, w.quantity)]), w.key, Accepted(ReceiptOf(w)));
  }

  lemma RefuseRuns(db: Db, key: Id, row: KeyRow, refusal: Refusal)
    requires key !in db.keys
    ensures RunAll(db, RefuseScript(key, row, refusal)).Some?
  {
    hide RunAll, Then;
    var ss := RefuseScript(key, row, refusal);
    Run2(db, ss[0], ss[1]);
    ThenInsertKey(db, key, row);
    ThenSetResponse(db.(keys := db.keys[key := row]), key, Declined(refusal));
  }

  lemma LoseRuns(db: Db, key: Id, row: KeyRow, saleId: Id, q: int)
    requires key !in db.keys
    requires saleId in db.sales && db.sales[saleId].state == Active && db.sales[saleId].remaining >= q
    ensures RunAll(db, LoseScript(key, row, saleId, q)).Some?
  {
    hide RunAll, Then;
    var ss := LoseScript(key, row, saleId, q);
    Run4(db, ss[0], ss[1], ss[2], ss[3]);
    ThenInsertKey(db, key, row);
    var d := db.(keys := db.keys[key := row]);
    ThenSale(d, saleId, Spend(q));
    d := d.(sales := d.sales[saleId := d.sales[saleId].(remaining := d.sales[saleId].remaining - q)]);
    ThenEmit(d, UnitsLost(saleId, q));
    ThenSetResponse(d.(journal := d.journal + [UnitsLost(saleId, q)]), key, Declined(ProductSoldOut));
  }

  // ---------------------------------------------------------------- TransitionReservation

  function MoveScript(rid: Id, oid: Id, r: Reservation, to: ReservationState): seq<Stmt> {
    [OnReservation(rid, SetReservation(to)), OnOrder(oid, SetOrder(Follows(to)))]
    + (if to == Cancelled then [OnStock(r.productId, Restore(r.quantity)), OnSale(r.saleId, Refill(r.quantity))]
       else [])
    + [Emit(Moved(rid, r.state, to))]
  }

  /** The first two statements: the reservation and its order. */
  function Restated(db: Db, rid: Id, oid: Id, to: ReservationState): Db
    requires CanMove(db, rid, oid, to)
  {
    db.(reservations := db.reservations[rid := db.reservations[rid].(state := to)],
        orders := db.orders[oid := db.orders[oid].(state := Follows(to))])
  }

  lemma RestatedRuns(db: Db, rid: Id, oid: Id, to: ReservationState)
    requires CanMove(db, rid, oid, to)
    ensures Then(Then(Some(db), OnReservation(rid, SetReservation(to))), OnOrder(oid, SetOrder(Follows(to))))
            == Some(Restated(db, rid, oid, to))
  {
    hide Then;
    ThenReservation(db, rid, SetReservation(to));
    ThenOrder(db.(reservations := db.reservations[rid := db.reservations[rid].(state := to)]), oid,
              SetOrder(Follows(to)));
  }

  lemma CancelScriptIsMove(db: Db, rid: Id, oid: Id)
    requires CanMove(db, rid, oid, Cancelled)
    requires db.inventory[db.reservations[rid].productId].reserved >= db.reservations[rid].quantity
    ensures RunAll(db, MoveScript(rid, oid, db.reservations[rid], Cancelled)) == Some(Move(db, rid, oid, Cancelled))
  {
    hide RunAll, Then;
    var r := db.reservations[rid];
    var ss := MoveScript(rid, oid, r, Cancelled);
    assert ss == [ss[0], ss[1], ss[2], ss[3], ss[4]];
    Run5(db, ss[0], ss[1], ss[2], ss[3], ss[4]);
    RestatedRuns(db, rid, oid, Cancelled);
    var d := Restated(db, rid, oid, Cancelled);
    ThenStock(d, r.productId, Restore(r.quantity));
    d := d.(inventory := db.inventory[r.productId := StockAfter(db.inventory[r.productId], Cancelled, r.quantity)]);
    ThenSale(d, r.saleId, Refill(r.quantity));
    ThenEmit(d.(sales := db.sales[r.saleId := SaleAfter(db.sales[r.saleId], Cancelled, r.quantity)]),
             Moved(rid, r.state, Cancelled));
  }

  lemma ConfirmScriptIsMove(db: Db, rid: Id, oid: Id)
    requires CanMove(db, rid, oid, Confirmed)
    ensures RunAll(db, MoveScript(rid, oid, db.reservations[rid], Confirmed)) == Some(Move(db, rid, oid, Confirmed))
  {
    hide RunAll, Then;
    var r := db.reservations[rid];
    var ss := MoveScript(rid, oid, r, Confirmed);
    assert ss == [ss[0], ss[1], ss[2]];
    Run4(db, ss[0], ss[1], ss[2], ss[2]);
    RestatedRuns(db, rid, oid, Confirmed);
    ThenEmit(Restated(db, rid, oid, Confirmed), Moved(rid, r.state, Confirmed));
    assert db.inventory[r.productId := db.inventory[r.productId]] == db.inventory;
    assert db.sales[r.saleId := db.sales[r.saleId]] == db.sales;
  }

  /** The statements of confirm and cancel amount to one lifecycle edge. */
  lemma MoveScriptIsMove(db: Db, rid: Id, oid: Id, to: ReservationState)
    requires CanMove(db, rid, oid, to) && (to == Confirmed || to == Cancelled)
    requires db.inventory[db.reservations[rid].productId].reserved >= db.reservations[rid].quantity
    ensures RunAll(db, MoveScript(rid, oid, db.reservations[rid], to)) == Some(Move(db, rid, oid, to))
  {
    hide RunAll, MoveScript, Move;
    if to == Cancelled {
      CancelScriptIsMove(db, rid, oid);
    } else {
      ConfirmScriptIsMove(db, rid, oid);
    }
  }

  // ---------------------------------------------------------------- SimulatePayment

  /** What an accepted callback does between inserting its payment and settling it. */
  function PayMoves(oid: Id, rid: Id, r: Reservation, outcome: Outcome): seq<Stmt> {
    match outcome
    case Successful =>
      [OnStock(r.productId, Sell(r.quantity)), OnReservation(rid, SetReservation(Paid)),
       OnOrder(oid, SetOrder(Follows(Paid))), Emit(Moved(rid, Confirmed, Paid))]
    case Failed => [OnOrder(oid, SetOrder(PaymentFailed))]
    case Delayed => []
  }

  function PayScript(key: Id, pid: Id, oid: Id, rid: Id, r: Reservation, outcome: Outcome): seq<Stmt> {
    [OnPayment(key, InsertPayment(PaymentRow(pid, oid, outcome).(status := Waiting)))]
    + PayMoves(oid, rid, r, outcome)
    + [OnPayment(key, SetPayment(StatusOf(outcome))), Emit(PaymentNoted(pid, StatusOf(outcome)))]
  }

  /** The payment row is in, still waiting. */
  function Inserted(db: Db, key: Id, row: Payment): Db {
    db.(payments := db.payments[key := row.(status := Waiting)])
  }

  predicate SellGuard(db: Db, r: Reservation) {
    r.productId in db.inventory && db.inventory[r.productId].reserved >= r.quantity
  }

  /** Stock from reserved to sold, both rows paid, one event. */
  function PaidRows(db: Db, oid: Id, rid: Id, r: Reservation): Db
    requires oid in db.orders && SellGuard(db, r)
  {
    db.(inventory := db.inventory[r.productId := StockAfter(db.inventory[r.productId], Paid, r.quantity)],
        reservations := db.reservations[rid := r.(state := Paid)],
        orders := db.orders[oid := db.orders[oid].(state := Follows(Paid))],
        journal := db.journal + [Moved(rid, Confirmed, Paid)])
  }

  function PayMoved(db: Db, oid: Id, rid: Id, r: Reservation, outcome: Outcome): Db
    requires oid in db.orders && (outcome == Successful ==> SellGuard(db, r))
  {
    match outcome
    case Successful => PaidRows(db, oid, rid, r)
    case Failed => db.(orders := db.orders[oid := db.orders[oid].(state := PaymentFailed)])
    case Delayed => db
  }

  /** The payment row gets its status and the event is written. */
  function SlipWritten(db: Db, key: Id, row: Payment): Db {
    db.(payments := db.payments[key := row], journal := db.journal + [PaymentNoted(row.paymentId, row.status)])
  }

  /** The conditions under which a callback is accepted, with the guard on `reserved`. */
  predicate Payable(db: Db, key: Id, oid: Id, outcome: Outcome) {
    && CanPay(db, key, oid, outcome)
    && (outcome == Successful ==>
          && CanMove(db, db.orders[oid].reservationId, oid, Paid)
          && SellGuard(db, db.reservations[db.orders[oid].reservationId]))
  }

  /** Insert, move and settle add up to Pay. */
  lemma SettledIsPay(db: Db, key: Id, pid: Id, oid: Id, outcome: Outcome)
    requires Payable(db, key, oid, outcome)
    ensures var (row, rid) := (PaymentRow(pid, oid, outcome), db.orders[oid].reservationId);
            SlipWritten(PayMoved(Inserted(db, key, row), oid, rid, db.reservations[rid], outcome), key, row)
            == Pay(db, key, pid, oid, outcome)
  {
    hide PaymentText;
    var row := PaymentRow(pid, oid, outcome);
    assert db.payments[key := row.(status := Waiting)][key := row] == db.payments[key := row];
    if outcome == Successful {
      var r := db.reservations[db.orders[oid].reservationId];
      assert db.sales[r.saleId := db.sales[r.saleId]] == db.sales;
    }
  }

  lemma PayMovesRun(db: Db, oid: Id, rid: Id, r: Reservation, outcome: Outcome)
    requires oid in db.orders && rid in db.reservations && db.reservations[rid] == r
    requires outcome == Successful ==> SellGuard(db, r)
    ensures RunAll(db, PayMoves(oid, rid, r, outcome)) == Some(PayMoved(db, oid, rid, r, outcome))
  {
    hide RunAll, Then;
    match outcome
    case Successful =>
      var ss := PayMoves(oid, rid, r, Successful);
      Run4(db, ss[0], ss[1], ss[2], ss[3]);
      ThenStock(db, r.productId, Sell(r.quantity));
      var d := db.(inventory := db.inventory[r.productId := StockAfter(db.inventory[r.productId], Paid, r.quantity)]);
      ThenReservation(d, rid, SetReservation(Paid));
      d := d.(reservations := d.reservations[rid := r.(state := Paid)]);
      ThenOrder(d, oid, SetOrder(Follows(Paid)));
      ThenEmit(d.(orders := d.orders[oid := d.orders[oid].(state := Follows(Paid))]), Moved(rid, Confirmed, Paid));
    case Failed =>
      RunNothing(db);
      RunNext(db, [], OnOrder(oid, SetOrder(PaymentFailed)));
      assert [] + PayMoves(oid, rid, r, Failed) == PayMoves(oid, rid, r, Failed);
      ThenOrder(db, oid, SetOrder(PaymentFailed));
    case Delayed => RunNothing(db);
  }

  lemma InsertRuns(db: Db, key: Id, row: Payment)
    requires key !in db.payments
    ensures RunAll(db, [OnPayment(key, InsertPayment(row.(status := Waiting)))]) == Some(Inserted(db, key, row))
  {
    hide RunAll, Then;
    var insert := OnPayment(key, InsertPayment(row.(status := Waiting)));
    RunNothing(db);
    RunNext(db, [], insert);
    assert [] + [insert] == [insert];
    ThenPayment(db, key, InsertPayment(row.(status := Waiting)));
  }

  lemma SettleRuns(db: Db, key: Id, row: Payment)
    requires key in db.payments && db.payments[key] == row.(status := Waiting)
    ensures RunAll(db, [OnPayment(key, SetPayment(row.status)), Emit(PaymentNoted(row.paymentId, row.status))])
            == Some(SlipWritten(db, key, row))
  {
    hide RunAll, Then;
    Run2(db, OnPayment(key, SetPayment(row.status)), Emit(PaymentNoted(row.paymentId, row.status)));
    ThenPayment(db, key, SetPayment(row.status));
    ThenEmit(db.(payments := db.payments[key := row]), PaymentNoted(row.paymentId, row.status));
  }

  lemma PayMovedKeeps(db: Db, oid: Id, rid: Id, r: Reservation, outcome: Outcome)
    requires oid in db.orders && (outcome == Successful ==> SellGuard(db, r))
    ensures PayMoved(db, oid, rid, r, outcome).payments == db.payments
  {
  }

  /** A payment callback's statements amount to Pay. */
  lemma PayScriptIsPay(db: Db, key: Id, pid: Id, oid: Id, outcome: Outcome)
    requires Payable(db, key, oid, outcome)
    ensures var rid := db.orders[oid].reservationId;
            RunAll(db, PayScript(key, pid, oid, rid, db.reservations[rid], outcome))
              == Some(Pay(db, key, pid, oid, outcome))
  {
    hide RunAll, PayMoves, PayMoved, SlipWritten, Pay, PaymentText;
    var row, rid := PaymentRow(pid, oid, outcome), db.orders[oid].reservationId;
    var r, begun := db.reservations[rid], Inserted(db, key, row);
    var insert := [OnPayment(key, InsertPayment(row.(status := Waiting)))];
    InsertRuns(db, key, row);
    RunAppend(db, insert, PayMoves(oid, rid, r, outcome));
    PayMovesRun(begun, oid, rid, r, outcome);
    PayMovedKeeps(begun, oid, rid, r, outcome);
    SettleRuns(PayMoved(begun, oid, rid, r, outcome), key, row);
    RunAppend(db, insert + PayMoves(oid, rid, r, outcome),
              [OnPayment(key, SetPayment(StatusOf(outcome))), Emit(PaymentNoted(pid, StatusOf(outcome)))]);
    SettledIsPay(db, key, pid, oid, outcome);
  }

  // ---------------------------------------------------------------- ExpireBatch

  /** A due row as the batch read it, with the id of its order. */
  datatype Due = Due(rid: Id, oid: Id, row: Reservation)

  /** The batch holds distinct pending rows as the database has them. */
  ghost predicate BatchOk(db: Db, batch: seq<Due>) {
    && (forall i :: 0 <= i < |batch| ==> DueOk(db, batch[i]))
    && (forall i, j :: 0 <= i < j < |batch| ==> batch[i].rid != batch[j].rid)
  }

  predicate DueOk(db: Db, d: Due) {
    CanMove(db, d.rid, d.oid, Expired) && d.row == db.reservations[d.rid]
  }

  /** The batch as one lifecycle edge after another. */
  function ExpireAll(db: Db, batch: seq<Due>): Db {
    if batch == [] then db
    else
      var before, last := ExpireAll(db, batch[..|batch| - 1]), batch[|batch| - 1];
      if CanMove(before, last.rid, last.oid, Expired) then Move(before, last.rid, last.oid, Expired) else before
  }

  /** What an edge of one reservation leaves alone about another. */
  lemma MoveFrame(db: Db, rid: Id, oid: Id, to: ReservationState, d: Due)
    requires CanMove(db, rid, oid, to) && DueOk(db, d) && d.rid != rid
    ensures DueOk(Move(db, rid, oid, to), d)
  {
  }

  lemma {:induction false} ExpireFrame(db: Db, batch: seq<Due>, d: Due)
    requires DueOk(db, d) && forall i :: 0 <= i < |batch| ==> batch[i].rid != d.rid
    ensures DueOk(ExpireAll(db, batch), d)
  {
    if batch != [] {
      var last := batch[|batch| - 1];
      var before := ExpireAll(db, batch[..|batch| - 1]);
      ExpireFrame(db, batch[..|batch| - 1], d);
      if CanMove(before, last.rid, last.oid, Expired) {
        MoveFrame(before, last.rid, last.oid, Expired, d);
      }
    }
  }

  function Marks(batch: seq<Due>): seq<Stmt> {
    if batch == [] then []
    else Marks(batch[..|batch| - 1]) + [OnReservation(batch[|batch| - 1].rid, SetReservation(Expired))]
  }

  function RestoreSteps(d: Due): seq<Stmt> {
    [OnStock(d.row.productId, Restore(d.row.quantity)), OnSale(d.row.saleId, Refill(d.row.quantity)),
     OnOrder(d.oid, SetOrder(Follows(Expired))), Emit(Moved(d.rid, Pending, Expired))]
  }

  function Restores(batch: seq<Due>): seq<Stmt> {
    if batch == [] then [] else Restores(batch[..|batch| - 1]) + RestoreSteps(batch[|batch| - 1])
  }

  /** One UPDATE marks every row of the batch, then a loop restores the counters row by row. */
  function ExpireScript(batch: seq<Due>): seq<Stmt> {
    Marks(batch) + Restores(batch)
  }

  function IdsOf(batch: seq<Due>): set<Id> {
    set d | d in batch :: d.rid
  }

  /** The UPDATE that marks the candidates. */
  function MarkAll(m: map<Id, Reservation>, ids: set<Id>): map<Id, Reservation> {
    map r | r in m :: if r in ids then m[r].(state := Expired) else m[r]
  }

  lemma IdsNext(batch: seq<Due>, d: Due)
    ensures IdsOf(batch + [d]) == IdsOf(batch) + {d.rid}
  {
  }

  lemma MarkNext(m: map<Id, Reservation>, ids: set<Id>, r: Id)
    requires r in m
    ensures MarkAll(m, ids)[r := MarkAll(m, ids)[r].(state := Expired)] == MarkAll(m, ids + {r})
  {
  }

  lemma {:induction false} MarksRun(db: Db, batch: seq<Due>)
    requires forall i :: 0 <= i < |batch| ==> batch[i].rid in db.reservations
    ensures RunAll(db, Marks(batch)) == Some(db.(reservations := MarkAll(db.reservations, IdsOf(batch))))
  {
    if batch == [] {
      assert MarkAll(db.reservations, IdsOf(batch)) == db.reservations;
    } else {
      hide MarkAll, IdsOf, Then;
      var init, last := batch[..|batch| - 1], batch[|batch| - 1];
      MarksRun(db, init);
      assert batch == init + [last];
      IdsNext(init, last);
      RunNext(db, Marks(init), OnReservation(last.rid, SetReservation(Expired)));
      var marked := db.(reservations := MarkAll(db.reservations, IdsOf(init)));
      MarkKeeps(db.reservations, IdsOf(init), last.rid);
      ThenReservation(marked, last.rid, SetReservation(Expired));
      MarkNext(db.reservations, IdsOf(init), last.rid);
    }
  }

  lemma MarkKeeps(m: map<Id, Reservation>, ids: set<Id>, r: Id)
    ensures r in MarkAll(m, ids) <==> r in m
  {
  }

  /** Marking is what the lifecycle edges do to the reservation table. */
  lemma {:induction false} MarksAreExpireAll(db: Db, batch: seq<Due>)
    requires BatchOk(db, batch)
    ensures MarkAll(db.reservations, IdsOf(batch)) == ExpireAll(db, batch).reservations
  {
    if batch == [] {
      assert MarkAll(db.reservations, IdsOf(batch)) == db.reservations;
    } else {
      hide MarkAll, IdsOf;
      var init, last := batch[..|batch| - 1], batch[|batch| - 1];
      assert BatchOk(db, init);
      MarksAreExpireAll(db, init);
      ExpireFrame(db, init, last);
      assert batch == init + [last];
      IdsNext(init, last);
      MarkNext(db.reservations, IdsOf(init), last.rid);
    }
  }

  predicate RestoreGuard(db: Db, d: Due) {
    d.row.productId in db.inventory && db.inventory[d.row.productId].reserved >= d.row.quantity
  }

  /** The loop body: both counters, the order and the event of one row. */
  function Restored(db: Db, d: Due): Db
    requires RestoreGuard(db, d) && d.oid in db.orders
  {
    var p, s := d.row.productId, d.row.saleId;
    db.(inventory := db.inventory[p := StockAfter(db.inventory[p], Expired, d.row.quantity)],
        sales := if s in db.sales then db.sales[s := SaleAfter(db.sales[s], Expired, d.row.quantity)] else db.sales,
        orders := db.orders[d.oid := db.orders[d.oid].(state := Follows(Expired))],
        journal := db.journal + [Moved(d.rid, Pending, Expired)])
  }

  lemma RestoreStepsRun(db: Db, d: Due)
    requires RestoreGuard(db, d) && d.oid in db.orders && d.row.saleId in db.sales
    ensures RunAll(db, RestoreSteps(d)) == Some(Restored(db, d))
  {
    hide RunAll, Then;
    var ss, t, s := RestoreSteps(d), db.inventory[d.row.productId], db.sales[d.row.saleId];
    Run4(db, ss[0], ss[1], ss[2], ss[3]);
    ThenStock(db, d.row.productId, Restore(d.row.quantity));
    var n := db.(inventory := db.inventory[d.row.productId := StockAfter(t, Expired, d.row.quantity)]);
    ThenSale(n, d.row.saleId, Refill(d.row.quantity));
    n := n.(sales := n.sales[d.row.saleId := SaleAfter(s, Expired, d.row.quantity)]);
    ThenOrder(n, d.oid, SetOrder(Follows(Expired)));
    ThenEmit(n.(orders := n.orders[d.oid := n.orders[d.oid].(state := Follows(Expired))]),
             Moved(d.rid, Pending, Expired));
  }

  /** Expiring a batch keeps the invariant. */
  lemma {:induction false} ExpireKeepsInv(db: Db, batch: seq<Due>)
    requires Inv(db)
    ensures Inv(ExpireAll(db, batch))
  {
    hide Inv, CanMove, Move;
    if batch != [] {
      var last := batch[|batch| - 1];
      var before := ExpireAll(db, batch[..|batch| - 1]);
      ExpireKeepsInv(db, batch[..|batch| - 1]);
      if CanMove(before, last.rid, last.oid, Expired) {
        MoveKeepsInv(before, last.rid, last.oid, Expired);
      }
    }
  }

  /** When the loop comes to a row, the edge is open and `reserved` covers its units. */
  lemma NextDueIsCovered(db: Db, batch: seq<Due>, n: nat)
    requires Inv(db) && BatchOk(db, batch) && n < |batch|
    ensures var d := ExpireAll(db, batch[..n]);
            DueOk(d, batch[n]) && d.inventory[batch[n].row.productId].reserved >= batch[n].row.quantity
  {
    hide ExpireAll, RefsOk, LedgerOk, SalesOk, LimitOk, OrdersOk, KeysOk, PaymentsOk, JournalOk;
    ExpireKeepsInv(db, batch[..n]);
    ExpireFrame(db, batch[..n], batch[n]);
    GuardNeverMisses(ExpireAll(db, batch[..n]), batch[n].rid);
  }

  /** Every row of the batch marked, the first n restored. */
  function Partly(db: Db, batch: seq<Due>, n: nat): Db
    requires n <= |batch|
  {
    ExpireAll(db, batch[..n]).(reservations := MarkAll(db.reservations, IdsOf(batch)))
  }

  /** The loop body finishes the lifecycle edge of row n, and its guard holds. */
  lemma NextIsRestored(db: Db, batch: seq<Due>, n: nat)
    requires Inv(db) && BatchOk(db, batch) && n < |batch|
    ensures var (d, m) := (batch[n], Partly(db, batch, n));
            && RestoreGuard(m, d) && d.oid in m.orders && d.row.saleId in m.sales
            && Restored(m, d) == Partly(db, batch, n + 1)
  {
    hide Inv, MarkAll;
    NextDueIsCovered(db, batch, n);
    assert batch[..n + 1][..n] == batch[..n];
  }

  lemma {:induction false} RestoresRun(db: Db, batch: seq<Due>, n: nat)
    requires Inv(db) && BatchOk(db, batch) && n <= |batch|
    ensures RunAll(Partly(db, batch, 0), Restores(batch[..n])) == Some(Partly(db, batch, n))
  {
    hide Inv, BatchOk, Partly, RestoreSteps, Restored, RestoreGuard;
    if n > 0 {
      RestoresRun(db, batch, n - 1);
      NextIsRestored(db, batch, n - 1);
      assert batch[..n][..n - 1] == batch[..n - 1];
      RunAppend(Partly(db, batch, 0), Restores(batch[..n - 1]), RestoreSteps(batch[n - 1]));
      RestoreStepsRun(Partly(db, batch, n - 1), batch[n - 1]);
    }
  }

  lemma MarkedIsPartly(db: Db, batch: seq<Due>)
    ensures db.(reservations := MarkAll(db.reservations, IdsOf(batch))) == Partly(db, batch, 0)
  {
  }

  lemma WhollyIsExpireAll(db: Db, batch: seq<Due>)
    requires BatchOk(db, batch)
    ensures Partly(db, batch, |batch|) == ExpireAll(db, batch)
  {
    hide ExpireAll, MarkAll;
    MarksAreExpireAll(db, batch);
    assert batch[..|batch|] == batch;
  }

  /** The batch's statements in their own order equal the lifecycle edges taken one after another. */
  lemma ExpireScriptIsExpireAll(db: Db, batch: seq<Due>)
    requires Inv(db) && BatchOk(db, batch)
    ensures RunAll(db, ExpireScript(batch)) == Some(ExpireAll(db, batch))
  {
    hide Inv, RunAll, ExpireAll, Partly, MarkAll, IdsOf;
    assert forall i :: 0 <= i < |batch| ==> DueOk(db, batch[i]);
    MarksRun(db, batch);
    MarkedIsPartly(db, batch);
    RestoresRun(db, batch, |batch|);
    assert batch[..|batch|] == batch;
    RunAppend(db, Marks(batch), Restores(batch));
    WhollyIsExpireAll(db, batch);
  }
}
