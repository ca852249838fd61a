/** When sale units can get lost: over whole runs, a product's sales lose nothing exactly when their
    remaining allocations together do not exceed the product's available stock. */
module Allocation {
  import opened Domain
  import opened Tables
  import opened Fingerprint
  import opened Journal
  import opened Ledger
  import opened Statements
  import opened Scripts
  import opened Locking
  import opened Machine
  import opened MachineProofs
  import opened Safety
  import opened Demo
  import opened Progress
  import opened Operations
  import opened Alone

  // ---------------------------------------------------------------- what the sales of a product promise

  function Share(s: Sale, p: Id): int {
    if s.productId == p then s.remaining else 0
  }

  /** The remaining allocations of all sales of a product. */
  ghost function Promised(sales: map<Id, Sale>, p: Id): int
    decreases sales.Keys
  {
    if sales == map[] then 0
    else
      var k :| k in sales;
      Share(sales[k], p) + Promised(sales - {k}, p)
  }

  lemma {:induction false} PromisedSplit(sales: map<Id, Sale>, p: Id, k: Id)
    requires k in sales
    ensures Promised(sales, p) == Share(sales[k], p) + Promised(sales - {k}, p)
    decreases sales.Keys
  {
    var j :| j in sales && Promised(sales, p) == Share(sales[j], p) + Promised(sales - {j}, p);
    if j != k {
      PromisedSplit(sales - {j}, p, k);
      PromisedSplit(sales - {k}, p, j);
      assert sales - {j} - {k} == sales - {k} - {j};
    }
  }

  lemma PromisedPut(sales: map<Id, Sale>, p: Id, k: Id, s: Sale)
    ensures Promised(sales[k := s], p)
            == Promised(sales, p) - (if k in sales then Share(sales[k], p) else 0) + Share(s, p)
  {
    PromisedSplit(sales[k := s], p, k);
    assert sales[k := s] - {k} == sales - {k};
    if k in sales {
      PromisedSplit(sales, p, k);
    } else {
      assert sales - {k} == sales;
    }
  }

  ghost predicate NonNegative(sales: map<Id, Sale>) {
    forall k :: k in sales ==> sales[k].remaining >= 0
  }

  lemma {:induction false} PromisedNonNegative(sales: map<Id, Sale>, p: Id)
    requires NonNegative(sales)
    ensures Promised(sales, p) >= 0
    decreases sales.Keys
  {
    if sales != map[] {
      var k :| k in sales;
      PromisedSplit(sales, p, k);
      PromisedNonNegative(sales - {k}, p);
    }
  }

  lemma PromisedCovers(sales: map<Id, Sale>, p: Id, k: Id)
    requires NonNegative(sales) && k in sales && sales[k].productId == p
    ensures sales[k].remaining <= Promised(sales, p)
  {
    PromisedSplit(sales, p, k);
    PromisedNonNegative(sales - {k}, p);
  }

  /** A positive promise is some sale's. */
  lemma {:induction false} SomePromise(sales: map<Id, Sale>, p: Id) returns (k: Id)
    requires Promised(sales, p) > 0
    ensures k in sales && sales[k].productId == p && sales[k].remaining >= 1
    decreases sales.Keys
  {
    k :| k in sales;
    PromisedSplit(sales, p, k);
    if Share(sales[k], p) <= 0 {
      k := SomePromise(sales - {k}, p);
    }
  }

  lemma InvIsNonNegative(db: Db)
    requires Inv(db)
    ensures NonNegative(db.sales)
  {
    hide RefsOk, LedgerOk, LimitOk, OrdersOk, KeysOk, PaymentsOk, JournalOk;
    forall k | k in db.sales ensures db.sales[k].remaining >= 0 {
      assert SaleOk(k, db.sales[k], db.reservations, db.journal);
    }
  }

  // ---------------------------------------------------------------- backed sales lose nothing

  ghost predicate Backed(db: Db, p: Id) {
    p in db.inventory && Promised(db.sales, p) <= db.inventory[p].available
  }

  predicate SaleOf(db: Db, s: Id, p: Id) {
    s in db.sales && db.sales[s].productId == p
  }

  /** Every sale of the product is still there and has lost no more than in `base`. */
  ghost predicate LostAsIn(db: Db, base: Db, p: Id) {
    forall s :: SaleOf(base, s, p) ==> SaleOf(db, s, p) && Lost(db.journal, s) == Lost(base.journal, s)
  }

  ghost predicate SalesAsIn(db: Db, base: Db, p: Id) {
    forall s :: SaleOf(db, s, p) ==> SaleOf(base, s, p)
  }

  /** No open transaction is about to lose units of the product. */
  predicate Keeps(db: Db, t: Txn, p: Id) {
    t.call.ReserveCall? && t.phase.Working? && t.phase.goal.Loses? ==> !SaleOf(db, t.call.saleId, p)
  }

  ghost predicate BackedOk(s: State, base: Db, p: Id) {
    && Good(s) && Backed(s.db, p) && LostAsIn(s.db, base, p) && SalesAsIn(s.db, base, p)
    && forall i :: i in s.txns ==> Keeps(s.db, s.txns[i], p)
  }

  /** Steps that set no stock level of the product and open no further sale of it. */
  predicate Steady(e: Step, p: Id) {
    && !(e.UpdateProduct? && e.id == p && e.newLevel.Some?)
    && !(e.CreateSale? && e.sale.productId == p)
  }

  /** A change of the tables that keeps the product backed and loses nothing of it. */
  ghost predicate Harmless(g: Db, d: Db, p: Id) {
    && p in g.inventory && p in d.inventory
    && d.inventory[p].available - Promised(d.sales, p) == g.inventory[p].available - Promised(g.sales, p)
    && (forall s :: SaleOf(g, s, p) <==> SaleOf(d, s, p))
    && (forall s :: SaleOf(g, s, p) ==> Lost(d.journal, s) == Lost(g.journal, s))
  }

  lemma HarmlessKeeps(g: Db, d: Db, base: Db, p: Id)
    requires Harmless(g, d, p) && Backed(g, p) && LostAsIn(g, base, p) && SalesAsIn(g, base, p)
    ensures Backed(d, p) && LostAsIn(d, base, p) && SalesAsIn(d, base, p)
  {
    hide SaleOf, Promised, Lost;
  }

  lemma HarmlessTrans(g: Db, d: Db, e: Db, p: Id)
    requires Harmless(g, d, p) && Harmless(d, e, p)
    ensures Harmless(g, e, p)
  {
    hide SaleOf, Promised, Lost;
  }

  lemma HarmlessQuiet(g: Db, d: Db, p: Id)
    requires p in g.inventory && d.inventory == g.inventory && d.sales == g.sales
    requires forall s :: Lost(d.journal, s) == Lost(g.journal, s)
    ensures Harmless(g, d, p)
  {
    hide Lost;
  }

  lemma HarmlessOpen(g: Db, w: Opening, p: Id)
    requires p in g.inventory && CanOpen(g, w)
    ensures Harmless(g, Open(g, w), p)
  {
    hide Lost, AcceptedRow, Total, Promised;
    var sale := g.sales[w.saleId];
    PromisedPut(g.sales, p, w.saleId, sale.(remaining := sale.remaining - w.quantity));
    forall s ensures Lost(Open(g, w).journal, s) == Lost(g.journal, s) {
      LostNext(g.journal, Opened(w.rid, w.productId, w.quantity), s);
    }
  }

  lemma HarmlessMove(g: Db, rid: Id, oid: Id, to: ReservationState, p: Id)
    requires p in g.inventory && CanMove(g, rid, oid, to)
    requires g.sales[g.reservations[rid].saleId].productId == g.reservations[rid].productId
    ensures Harmless(g, Move(g, rid, oid, to), p)
  {
    hide Lost, Promised;
    var r := g.reservations[rid];
    PromisedPut(g.sales, p, r.saleId, SaleAfter(g.sales[r.saleId], to, r.quantity));
    forall s ensures Lost(Move(g, rid, oid, to).journal, s) == Lost(g.journal, s) {
      LostNext(g.journal, Moved(rid, r.state, to), s);
    }
  }

  lemma OwnSale(g: Db, rid: Id)
    requires Inv(g) && rid in g.reservations && g.reservations[rid].saleId in g.sales
    ensures g.sales[g.reservations[rid].saleId].productId == g.reservations[rid].productId
  {
    hide LedgerOk, SalesOk, LimitOk, OrdersOk, KeysOk, PaymentsOk, JournalOk;
    assert Refers(g.reservations[rid], g.sales);
  }

  lemma {:induction false} HarmlessExpire(g: Db, batch: seq<Due>, p: Id)
    requires Inv(g) && BatchOk(g, batch) && p in g.inventory
    ensures Harmless(g, ExpireAll(g, batch), p)
  {
    hide Inv, Harmless, Move;
    if batch == [] {
      HarmlessQuiet(g, g, p);
    } else {
      var init, last := batch[..|batch| - 1], batch[|batch| - 1];
      var before := ExpireAll(g, init);
      assert BatchOk(g, init);
      HarmlessExpire(g, init, p);
      if CanMove(before, last.rid, last.oid, Expired) {
        ExpireKeepsInv(g, init);
        OwnSale(before, last.rid);
        StillStocked(g, before, p);
        HarmlessMove(before, last.rid, last.oid, Expired, p);
        HarmlessTrans(g, before, ExpireAll(g, batch), p);
      }
    }
  }

  lemma StillStocked(g: Db, d: Db, p: Id)
    requires Harmless(g, d, p)
    ensures p in d.inventory
  {
    hide Promised, Lost;
  }

  lemma HarmlessPay(g: Db, key: Id, pid: Id, oid: Id, outcome: Outcome, p: Id)
    requires Inv(g) && p in g.inventory && CanPay(g, key, oid, outcome)
    requires outcome == Successful ==> CanMove(g, g.orders[oid].reservationId, oid, Paid)
    ensures Harmless(g, Pay(g, key, pid, oid, outcome), p)
  {
    hide Inv, Lost, PaymentRow, Promised;
    var e, d := PaymentNoted(pid, StatusOf(outcome)), Pay(g, key, pid, oid, outcome);
    if outcome == Successful {
      var rid := g.orders[oid].reservationId;
      OwnSale(g, rid);
      HarmlessMove(g, rid, oid, Paid, p);
      var m := Move(g, rid, oid, Paid);
      forall s ensures Lost(d.journal, s) == Lost(m.journal, s) {
        LostNext(m.journal, e, s);
      }
    } else {
      forall s ensures Lost(d.journal, s) == Lost(g.journal, s) {
        LostNext(g.journal, e, s);
      }
    }
  }

  lemma HarmlessLoss(g: Db, key: Id, row: KeyRow, saleId: Id, q: int, p: Id)
    requires p in g.inventory && saleId in g.sales && !SaleOf(g, saleId, p)
    ensures Harmless(g, RefuseAndLose(g, key, row, saleId, q), p)
  {
    hide Lost, Promised;
    var sale := g.sales[saleId];
    PromisedPut(g.sales, p, saleId, sale.(remaining := sale.remaining - q));
    forall s ensures SaleOf(g, s, p) ==> Lost(RefuseAndLose(g, key, row, saleId, q).journal, s) == Lost(g.journal, s) {
      LostNext(g.journal, UnitsLost(saleId, q), s);
    }
  }

  lemma HarmlessCommit(g: Db, t: Txn, d: Db, p: Id)
    requires Inv(g) && p in g.inventory && t.phase.Working? && Keeps(g, t, p) && CommitsAs(g, t, d)
    ensures Harmless(g, d, p)
  {
    hide Inv, Harmless, BatchOk, ExpireAll, Move, Pay, Open, CanOpen, CanPay, RefuseAndLose;
    match t.phase.goal
    case Opens(w, _) => HarmlessOpen(g, w, p);
    case Refuses(_, _) => HarmlessQuiet(g, d, p);
    case Loses(row) => HarmlessLoss(g, t.call.key, row, t.call.saleId, t.call.quantity, p);
    case Moves(oid, _) =>
      OwnSale(g, t.call.rid);
      HarmlessMove(g, t.call.rid, oid, t.call.to, p);
    case Expires(batch) => HarmlessExpire(g, batch, p);
    case Pays(pid, _, _) => HarmlessPay(g, t.call.payKey, pid, t.call.oid, t.call.outcome, p);
  }

  lemma HarmlessStock(g: Db, d: Db, p: Id, id: Id, level: int)
    requires p in g.inventory && p in d.inventory && d.inventory[p] == g.inventory[p] && d.sales == g.sales
    requires d.journal == g.journal + [StockSet(id, level)]
    ensures Harmless(g, d, p)
  {
    hide Lost, Promised;
    forall x ensures Lost(d.journal, x) == Lost(g.journal, x) {
      LostNext(g.journal, StockSet(id, level), x);
    }
  }

  lemma HarmlessSale(g: Db, d: Db, p: Id, id: Id, sale: Sale)
    requires p in g.inventory && d == g.(sales := g.sales[id := sale])
    requires if id in g.sales then sale.productId == g.sales[id].productId && sale.remaining == g.sales[id].remaining
             else sale.productId != p
    ensures Harmless(g, d, p)
  {
    hide Lost, Promised;
    PromisedPut(g.sales, p, id, sale);
  }

  lemma HarmlessCreate(s: State, id: Id, product: Product, level: int, p: Id)
    requires p in s.db.inventory && Enabled(s, CreateProduct(id, product, level))
    ensures Harmless(s.db, After(s, CreateProduct(id, product, level)).db, p)
  {
    hide Harmless, Unlocked;
    HarmlessStock(s.db, AddProduct(s.db, id, product, level), p, id, level);
  }

  lemma HarmlessEdit(g: Db, id: Id, product: Product, level: Option<int>, p: Id)
    requires p in g.inventory && CanEdit(g, id, level) && !(id == p && level.Some?)
    ensures Harmless(g, EditProduct(g, id, product, level), p)
  {
    hide Harmless;
    if level.Some? {
      HarmlessStock(g, EditProduct(g, id, product, level), p, id, level.value);
    } else {
      HarmlessQuiet(g, EditProduct(g, id, product, level), p);
    }
  }

  lemma HarmlessProductStep(s: State, e: Step, p: Id)
    requires p in s.db.inventory && Enabled(s, e) && (e.CreateProduct? || e.UpdateProduct?) && Steady(e, p)
    ensures Harmless(s.db, After(s, e).db, p)
  {
    hide Harmless, Unlocked, CanEdit, EditProduct, AddProduct;
    if e.CreateProduct? {
      HarmlessCreate(s, e.id, e.product, e.level, p);
    } else {
      HarmlessEdit(s.db, e.id, e.product, e.newLevel, p);
    }
  }

  lemma HarmlessSaleStep(s: State, e: Step, p: Id)
    requires p in s.db.inventory && Enabled(s, e) && (e.CreateSale? || e.ChangeSale?) && Steady(e, p)
    ensures Harmless(s.db, After(s, e).db, p)
  {
    hide Harmless, Unlocked;
    var sale := if e.CreateSale? then e.sale else s.db.sales[e.id].(state := e.state);
    HarmlessSale(s.db, After(s, e).db, p, e.id, sale);
  }

  lemma HarmlessPurge(s: State, now: int, p: Id)
    requires p in s.db.inventory && Enabled(s, PurgeKeys(now))
    ensures Harmless(s.db, After(s, PurgeKeys(now)).db, p)
  {
    hide Harmless, Unlocked;
    HarmlessQuiet(s.db, After(s, PurgeKeys(now)).db, p);
  }

  lemma HarmlessCatalog(s: State, e: Step, p: Id)
    requires p in s.db.inventory && Enabled(s, e) && (CatalogStep(e) || e.PurgeKeys?) && Steady(e, p)
    ensures Harmless(s.db, After(s, e).db, p)
  {
    hide Harmless, Enabled, After;
    if e.PurgeKeys? {
      HarmlessPurge(s, e.now, p);
    } else if e.CreateProduct? || e.UpdateProduct? {
      HarmlessProductStep(s, e, p);
    } else {
      HarmlessSaleStep(s, e, p);
    }
  }

  // ---------------------------------------------------------------- whole runs

  /** A transaction that has spent sale units of a backed product finds the stock. */
  lemma BackedStockHits(s: State, t: Txn, p: Id)
    requires Inv(s.db) && Backed(s.db, p) && TxnOk(s.db, t)
    requires t.phase.Working? && t.phase.goal.Opens? && t.plan != [] && t.plan[0].OnStock?
    ensures SaleOf(s.db, t.phase.goal.w.saleId, p) ==> Hits(View(s.db, t), t.plan[0])
  {
    hide Inv, TxnOk, Publish, Promised;
    SpentUnitsWereThere(s.db, t);
    if SaleOf(s.db, t.phase.goal.w.saleId, p) {
      InvIsNonNegative(s.db);
      PromisedCovers(s.db.sales, p, t.phase.goal.w.saleId);
    }
  }

  lemma KeepsExecute(s: State, tid: nat, base: Db, p: Id)
    requires BackedOk(s, base, p) && Enabled(s, Execute(tid))
    ensures Keeps(s.db, After(s, Execute(tid)).txns[tid], p)
  {
    hide Inv, TxnOk, Apart, Publish, Backed, LostAsIn, SalesAsIn, Hits, Absorb, LocksOf;
    var t := s.txns[tid];
    if t.phase.goal.Opens? && t.plan[0].OnStock? {
      BackedStockHits(s, t, p);
      OpeningSale(s.db, t);
    }
  }

  lemma OpeningSale(g: Db, t: Txn)
    requires TxnOk(g, t) && t.phase.Working? && t.phase.goal.Opens?
    ensures t.call.ReserveCall? && t.phase.goal.w.saleId == t.call.saleId
  {
    hide Serial, Covered;
  }

  lemma KeepsOther(s: State, e: Step, p: Id, i: nat)
    requires Enabled(s, e) && !e.Execute? && (i in s.txns ==> Keeps(s.db, s.txns[i], p)) && i in After(s, e).txns
    ensures Keeps(s.db, After(s, e).txns[i], p)
  {
    hide Hits, Absorb, Publish, LocksOf, OpenScript, MoveScript, PayScript, ExpireScript, PaymentRow, ClaimRow;
    hide Total, ReplayAnswer, SaleOf;
  }

  lemma KeepsStep(s: State, e: Step, base: Db, p: Id)
    requires BackedOk(s, base, p) && Enabled(s, e)
    ensures forall i :: i in After(s, e).txns ==> Keeps(s.db, After(s, e).txns[i], p)
  {
    hide Good, Backed, LostAsIn, SalesAsIn, Enabled, After, Keeps;
    forall i | i in After(s, e).txns ensures Keeps(s.db, After(s, e).txns[i], p) {
      if e.Execute? {
        ExecuteOnly(s, e.tid, i);
        if i == e.tid {
          KeepsExecute(s, e.tid, base, p);
        }
      } else {
        KeepsOther(s, e, p, i);
      }
    }
  }

  lemma ExecuteOnly(s: State, tid: nat, i: nat)
    requires Enabled(s, Execute(tid)) && i in After(s, Execute(tid)).txns
    ensures i in s.txns && (i != tid ==> After(s, Execute(tid)).txns[i] == s.txns[i])
  {
    hide Hits, Absorb, Publish, LocksOf;
  }

  lemma HarmlessStep(s: State, e: Step, base: Db, p: Id)
    requires BackedOk(s, base, p) && Enabled(s, e) && Steady(e, p)
    ensures Harmless(s.db, After(s, e).db, p)
  {
    hide Inv, TxnOk, Apart, Enabled, After, LostAsIn, SalesAsIn, Harmless, Keeps, Promised;
    if e.Commit? {
      HarmlessAfterCommit(s, e.tid, p);
    } else if CatalogStep(e) || e.PurgeKeys? {
      HarmlessCatalog(s, e, p);
    } else {
      TablesStay(s, e);
      HarmlessQuiet(s.db, s.db, p);
    }
  }

  lemma HarmlessAfterCommit(s: State, tid: nat, p: Id)
    requires Good(s) && Enabled(s, Commit(tid)) && p in s.db.inventory
    requires forall i :: i in s.txns ==> Keeps(s.db, s.txns[i], p)
    ensures Harmless(s.db, After(s, Commit(tid)).db, p)
  {
    hide Inv, TxnOk, Apart, CommitsAs, Publish, Harmless, Keeps;
    var t := s.txns[tid];
    CommitRefines(s.db, t);
    HarmlessCommit(s.db, t, View(s.db, t), p);
  }

  lemma BackedStep(s: State, e: Step, base: Db, p: Id)
    requires BackedOk(s, base, p) && Enabled(s, e) && Steady(e, p)
    ensures BackedOk(After(s, e), base, p)
  {
    hide Good, Enabled, After, Backed, LostAsIn, SalesAsIn, SaleOf;
    StepKeepsGood(s, e);
    KeepsStep(s, e, base, p);
    HarmlessStep(s, e, base, p);
    HarmlessKeeps(s.db, After(s, e).db, base, p);
    SameSales(s.db, After(s, e).db, p);
  }

  lemma SameSales(g: Db, d: Db, p: Id)
    requires Harmless(g, d, p)
    ensures forall s :: SaleOf(d, s, p) ==> SaleOf(g, s, p)
  {
    hide Promised, Lost, SaleOf;
  }

  lemma {:induction false} BackedRuns(run: seq<State>, steps: seq<Step>, db: Db, p: Id)
    requires IsRun(run, steps) && Starts(run[0], db) && Inv(db) && Backed(db, p)
    requires forall i :: 0 <= i < |steps| ==> Steady(steps[i], p)
    ensures forall i :: 0 <= i < |run| ==> BackedOk(run[i], db, p)
    decreases |steps|
  {
    hide Inv, Good, Enabled, After, Backed, BackedOk;
    if steps == [] {
      StartIsGood(run[0], db);
      StartIsBacked(run[0], db, p);
    } else {
      var n := |steps| - 1;
      assert IsRun(run[..n + 1], steps[..n]);
      BackedRuns(run[..n + 1], steps[..n], db, p);
      BackedStep(run[n], steps[n], db, p);
    }
  }

  lemma StartIsBacked(s: State, db: Db, p: Id)
    requires Starts(s, db) && Good(s) && Backed(db, p)
    ensures BackedOk(s, db, p)
  {
    hide Good, Backed;
  }

  /** In runs that neither restock the product nor open further sales of it. */
  ghost predicate SteadyRun(run: seq<State>, steps: seq<Step>, db: Db, p: Id, i: nat) {
    Reached(run, steps, db, i) && forall j :: 0 <= j < |steps| ==> Steady(steps[j], p)
  }

  /** While the remaining allocations of a product's sales are backed by its stock, no run loses a unit. */
  lemma BackedSalesLoseNothing(run: seq<State>, steps: seq<Step>, db: Db, p: Id, i: nat, saleId: Id)
    requires SteadyRun(run, steps, db, p, i) && Backed(db, p) && SaleOf(db, saleId, p)
    ensures Backed(run[i].db, p) && SaleOf(run[i].db, saleId, p)
    ensures Lost(run[i].db.journal, saleId) == Lost(db.journal, saleId)
  {
    hide Inv, Good, IsRun, Backed, SaleOf, Lost;
    BackedRuns(run, steps, db, p);
    assert BackedOk(run[i], db, p);
  }

  // ---------------------------------------------------------------- unbacked sales can lose units

  /** Everybody can buy one unit of the product in any of its sales. */
  ghost predicate OnSaleNow(db: Db, p: Id) {
    && p in db.products && db.products[p].active && Wrap64(db.products[p].price) >= 0
    && forall s :: SaleOf(db, s, p) ==>
         s.text != "" && db.sales[s].state == Active && db.sales[s].startsAt < db.sales[s].endsAt
         && db.sales[s].maxPerUser >= 1
  }

  /** More keys and user names than this exist within the length limits of a request. */
  const PLENTY: nat := Pow10(100)

  /** Not all names are taken, even after the whole stock is sold. */
  predicate NamesLeft(db: Db, p: Id)
    requires p in db.inventory
  {
    |db.keys| + db.inventory[p].available < PLENTY && |db.reservations| + db.inventory[p].available < PLENTY
  }

  function Numbered(n: nat): Id {
    Id(Decimal(n))
  }

  /** The first n numbers as names. */
  function FirstNames(n: nat): set<Id> {
    if n == 0 then {} else FirstNames(n - 1) + {Numbered(n - 1)}
  }

  lemma {:induction false} FirstNamesCount(n: nat)
    ensures |FirstNames(n)| == n
    ensures forall x :: x in FirstNames(n) ==> exists i: nat :: i < n && x == Numbered(i)
  {
    if n > 0 {
      FirstNamesCount(n - 1);
      if Numbered(n - 1) in FirstNames(n - 1) {
        var i: nat :| i < n - 1 && Numbered(n - 1) == Numbered(i);
        DecimalInjective(n - 1, i);
      }
    }
  }

  lemma {:induction false} SmallerSet(a: set<Id>, b: set<Id>)
    requires a <= b
    ensures |a| <= |b|
  {
    if a != {} {
      var x :| x in a;
      SmallerSet(a - {x}, b - {x});
    }
  }

  lemma NewName(taken: set<Id>) returns (x: Id)
    requires |taken| < PLENTY
    ensures x !in taken && 1 <= |x.text| <= 100
  {
    hide PLENTY, Decimal;
    var n := |taken| + 1;
    FirstNamesCount(n);
    if FirstNames(n) <= taken {
      SmallerSet(FirstNames(n), taken);
    }
    x :| x in FirstNames(n) && x !in taken;
    var i: nat :| i < n && x == Numbered(i);
    ShortName(i);
  }

  lemma ShortName(i: nat)
    requires i < PLENTY
    ensures 1 <= |Numbered(i).text| <= 100
  {
    DecimalLength(i, 100);
  }

  lemma {:induction false} FewUsers(m: map<Id, Reservation>)
    ensures |Users(m)| <= |m|
    decreases m.Keys
  {
    if m != map[] {
      var r :| r in m;
      FewUsers(m - {r});
      assert m.Keys == (m - {r}).Keys + {r};
      assert Users(m) == Users(m - {r}) + {m[r].userId};
    }
  }

  /** A buyer nobody has seen, under a key nobody has used. */
  lemma NewBuyer(db: Db, p: Id, saleId: Id) returns (c: Call, v: Env)
    requires saleId in db.sales && saleId.text != "" && p in db.inventory && db.inventory[p].available >= 0
    requires NamesLeft(db, p)
    ensures Request(c) && c.saleId == saleId && c.quantity == 1 && c.key !in db.keys
    ensures Total(ActiveBy(saleId, c.userId), db.reservations) == 0
    ensures v.rid !in db.reservations && v.oid !in db.orders && v.now == db.sales[saleId].startsAt
  {
    hide PLENTY;
    FewUsers(db.reservations);
    var user := NewName(Users(db.reservations));
    var key := NewName(db.keys.Keys);
    var rid := FreshId(db.reservations.Keys);
    var oid := FreshId(db.orders.Keys);
    c, v := ReserveCall(saleId, user, 1, key), Env(db.sales[saleId].startsAt, 0, rid, oid, 0);
    TotalNone(ActiveBy(saleId, user), db.reservations);
  }

  /** The request of such a buyer reaches the stock. */
  ghost predicate Arrives(db: Db, p: Id, c: Call, v: Env) {
    && Request(c) && SaleOf(db, c.saleId, p) && c.quantity == 1 && c.key !in db.keys
    && Total(ActiveBy(c.saleId, c.userId), db.reservations) == 0
    && v.now == db.sales[c.saleId].startsAt && db.sales[c.saleId].remaining >= 1
  }

  /** It opens a reservation, or it loses its unit. */
  lemma ArrivalIsHandled(db: Db, p: Id, c: Call, v: Env)
    requires OnSaleNow(db, p) && p in db.inventory && Arrives(db, p, c, v)
    ensures Handle(db, c, v).1.Answered?
    ensures db.inventory[p].available < 1 ==> LosesUnits(db, c, v)
    ensures db.inventory[p].available >= 1 ==>
              var w := OpeningOf(db, c, v);
              && w.saleId == c.saleId && w.productId == p && w.quantity == 1 && w.key == c.key
              && Handle(db, c, v).0 == Open(db, w)
  {
    hide Total, AcceptedRow, ClaimRow, Open, RefuseAndLose, Refuse;
    assert SaleRefusal(db, c.saleId, v.now).None?;
    assert Screen(db, c, v.now).None?;
  }

  /** What an opened reservation leaves. */
  lemma OneUnitLess(db: Db, p: Id, w: Opening)
    requires OnSaleNow(db, p) && p in db.inventory && SaleOf(db, w.saleId, p) && w.productId == p && w.quantity == 1
    ensures var d := Open(db, w);
            && OnSaleNow(d, p) && p in d.inventory && d.inventory[p].available == db.inventory[p].available - 1
            && Promised(d.sales, p) == Promised(db.sales, p) - 1
            && |d.keys| <= |db.keys| + 1 && |d.reservations| <= |db.reservations| + 1
            && forall s :: SaleOf(d, s, p) ==> SaleOf(db, s, p)
  {
    hide Promised, AcceptedRow;
    var sale := db.sales[w.saleId];
    PromisedPut(db.sales, p, w.saleId, sale.(remaining := sale.remaining - 1));
    OneMoreRow(db.keys, w.key, AcceptedRow(w));
    OneMoreRow(db.reservations, w.rid, ReservationOf(w));
  }

  lemma OneMoreRow<V>(m: map<Id, V>, k: Id, x: V)
    ensures |m[k := x]| <= |m| + 1
  {
    assert m[k := x].Keys == m.Keys + {k};
  }

  /** Buyers one after another use up the stock; the next one loses a unit. */
  lemma {:induction false} DrainAndLose(s: State, p: Id) returns (steps: seq<Step>, n: State, saleId: Id)
    requires Good(s) && s.txns == map[] && p in s.db.inventory && s.db.inventory[p].available >= 0
    requires OnSaleNow(s.db, p) && NamesLeft(s.db, p) && !Backed(s.db, p)
    ensures Path(s, steps, n) && TxnSteps(steps)
    ensures SaleOf(s.db, saleId, p) && Lost(n.db.journal, saleId) > Lost(s.db.journal, saleId)
    decreases s.db.inventory[p].available
  {
    hide Good, Path, Handle, Lost, LosesUnits, OnSaleNow, PLENTY, Open, OpeningOf, Total;
    var first := SomePromise(s.db.sales, p);
    SaleHasName(s.db, p, first);
    var c, v := NewBuyer(s.db, p, first);
    ArrivalIsHandled(s.db, p, c, v);
    steps := ReserveAlone(s, c, v);
    var m := CallEnds(s, c, Handle(s.db, c, v));
    LostAfterHandle(s.db, c, v, first);
    if s.db.inventory[p].available < 1 {
      n, saleId := m, first;
    } else {
      OneUnitLess(s.db, p, OpeningOf(s.db, c, v));
      PathIsGood(s, steps, m);
      var rest;
      rest, n, saleId := DrainAndLose(m, p);
      LostAfterHandle(s.db, c, v, saleId);
      PathJoin(s, steps, m, rest, n);
      steps := steps + rest;
    }
  }

  lemma SaleHasName(db: Db, p: Id, s: Id)
    requires OnSaleNow(db, p) && SaleOf(db, s, p)
    ensures s.text != "" && p in db.products
  {
  }

  ghost predicate NeverLoses(db: Db, p: Id) {
    forall run: seq<State>, steps, i: nat, s :: SteadyRun(run, steps, db, p, i) && SaleOf(db, s, p) ==>
      Lost(run[i].db.journal, s) == Lost(db.journal, s)
  }

  lemma StockIsNonNegative(db: Db, p: Id)
    requires Inv(db) && p in db.inventory
    ensures db.inventory[p].available >= 0
  {
    hide RefsOk, SalesOk, LimitOk, OrdersOk, KeysOk, PaymentsOk, JournalOk;
    assert StockOk(p, db.inventory[p], db.reservations);
  }

  lemma UnbackedSalesCanLose(db: Db, p: Id) returns (run: seq<State>, steps: seq<Step>, i: nat, saleId: Id)
    requires Inv(db) && p in db.inventory && OnSaleNow(db, p) && NamesLeft(db, p) && !Backed(db, p)
    ensures SteadyRun(run, steps, db, p, i) && SaleOf(db, saleId, p)
    ensures Lost(run[i].db.journal, saleId) > Lost(db.journal, saleId)
  {
    hide Inv, Good, OnSaleNow, NamesLeft, Backed, SaleOf, Lost, Path, Enabled, After;
    var s := State(db, map[], [], []);
    StartIsGood(s, db);
    StockIsNonNegative(db, p);
    var n;
    steps, n, saleId := DrainAndLose(s, p);
    run := PathIsRun(s, steps, n);
    i := |steps|;
  }

  /** The exact condition: however reservations, confirmations, cancellations, expiries, payments and
      changes of state interleave, no unit of the product's open sales is ever lost exactly when their
      remaining allocations together are within the available stock. */
  lemma NothingIsLostExactlyWhen(db: Db, p: Id)
    requires Inv(db) && p in db.inventory && OnSaleNow(db, p) && NamesLeft(db, p)
    ensures NeverLoses(db, p) <==> Promised(db.sales, p) <= db.inventory[p].available
  {
    hide Inv, OnSaleNow, NamesLeft, Lost, Promised, IsRun, Steady, SaleOf;
    if Backed(db, p) {
      forall run: seq<State>, steps, i: nat, s | SteadyRun(run, steps, db, p, i) && SaleOf(db, s, p)
        ensures Lost(run[i].db.journal, s) == Lost(db.journal, s)
      {
        BackedSalesLoseNothing(run, steps, db, p, i, s);
      }
    } else {
      var run, steps, i, s := UnbackedSalesCanLose(db, p);
    }
  }

  /** It does happen: CreateSale does not compare the allocation with the stock. */
  lemma UnitsCanBeLost(p: Id, s: Id)
    requires s.text != ""
    ensures Inv(Oversized(p, s)) && !NeverLoses(Oversized(p, s), p)
  {
    hide NeverLoses, Inv;
    var db := Oversized(p, s);
    OversizedHasInv(p, s);
    assert db.sales == map[s := Sale(p, 0, 10, 5, 5, 1, Active)];
    PromisedSplit(db.sales, p, s);
    assert db.sales - {s} == map[];
    Pow10Positive(100);
    NothingIsLostExactlyWhen(db, p);
  }
}
