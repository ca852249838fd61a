/** Reserve with nobody else about: the steps of the interleaved machine end in what the operation
    computes, branch by branch. */
module Alone {
  import opened Domain
  import opened Tables
  import opened Fingerprint
  import opened Ledger
  import opened LedgerProofs
  import opened Statements
  import opened Scripts
  import opened Locking
  import opened Machine
  import opened MachineProofs
  import opened Operations
  import opened Expiry

  // ---------------------------------------------------------------- paths

  /** The steps lead from one state to another. */
  ghost predicate Path(s: State, steps: seq<Step>, n: State)
    decreases |steps|
  {
    if steps == [] then s == n else Enabled(s, steps[0]) && Path(After(s, steps[0]), steps[1..], n)
  }

  lemma PathCons(s: State, e: Step, steps: seq<Step>, n: State)
    requires Enabled(s, e) && Path(After(s, e), steps, n)
    ensures Path(s, [e] + steps, n)
  {
    hide Enabled, After;
    assert ([e] + steps)[1..] == steps;
  }

  lemma PathOne(s: State, e: Step)
    requires Enabled(s, e)
    ensures Path(s, [e], After(s, e))
  {
    hide Enabled, After;
    assert Path(After(s, e), [], After(s, e));
  }

  lemma {:induction false} PathJoin(s: State, a: seq<Step>, m: State, b: seq<Step>, n: State)
    requires Path(s, a, m) && Path(m, b, n)
    ensures Path(s, a + b, n)
    decreases |a|
  {
    hide Enabled, After;
    if a == [] {
      assert a + b == b;
    } else {
      PathJoin(After(s, a[0]), a[1..], m, b, n);
      assert (a + b)[1..] == a[1..] + b;
    }
  }

  /** A path is a run. */
  lemma {:induction false} PathIsRun(s: State, steps: seq<Step>, n: State) returns (run: seq<State>)
    requires Path(s, steps, n)
    ensures IsRun(run, steps) && run[0] == s && run[|steps|] == n
    decreases |steps|
  {
    hide Enabled, After;
    if steps == [] {
      run := [s];
    } else {
      var rest := PathIsRun(After(s, steps[0]), steps[1..], n);
      run := [s] + rest;
      forall i | 0 <= i < |steps| ensures Enabled(run[i], steps[i]) && run[i + 1] == After(run[i], steps[i]) {
        if i > 0 {
          assert Enabled(rest[i - 1], steps[1..][i - 1]) && rest[i - 1 + 1] == After(rest[i - 1], steps[1..][i - 1]);
        }
      }
    }
  }

  lemma {:induction false} PathIsGood(s: State, steps: seq<Step>, n: State)
    requires Path(s, steps, n) && Good(s)
    ensures Good(n)
    decreases |steps|
  {
    hide Enabled, After, Good;
    if steps != [] {
      StepKeepsGood(s, steps[0]);
      PathIsGood(After(s, steps[0]), steps[1..], n);
    }
  }

  /** Steps that a transaction takes on its own behalf. */
  predicate TxnSteps(steps: seq<Step>) {
    forall i :: 0 <= i < |steps| ==> !CatalogStep(steps[i]) && !steps[i].PurgeKeys?
  }

  // ---------------------------------------------------------------- one open transaction

  const ME: nat := 0

  function Solo(s: State, t: Txn): State {
    s.(txns := map[ME := t])
  }

  /** The transaction has committed and told its caller. */
  function Ended(s: State, d: Db, c: Call, a: Answer): State {
    s.(db := d, txns := map[], trace := s.trace + [Told(c, a)])
  }

  lemma SoloIsFree(s: State, t: Txn, locks: set<Lock>)
    ensures Free(Solo(s, t), ME, locks)
  {
  }

  lemma SoloKnows(s: State, t: Txn)
    requires Good(Solo(s, t))
    ensures TxnOk(s.db, t) && RunAll(s.db, t.done) == Some(View(s.db, t))
  {
    hide Inv, TxnOk, Apart;
    assert TxnOk(Solo(s, t).db, Solo(s, t).txns[ME]);
    SoloSerial(s.db, t);
  }

  lemma SoloSerial(g: Db, t: Txn)
    requires TxnOk(g, t)
    ensures RunAll(g, t.done) == Some(View(g, t))
  {
    hide Serial, Covered, Control, RunAll, Publish;
    CommitIsSerial(g, t.locks, t.done, t.own);
  }

  predicate Answers(t: Txn) {
    t.call.ReserveCall? && t.phase.Working? && (t.phase.goal.Opens? || t.phase.goal.Refuses? || t.phase.goal.Loses?)
  }

  predicate PaysOut(t: Txn) {
    t.call.PayCall? && t.phase.Working? && t.phase.goal.Pays?
  }

  /** The state its commit leaves, with what its caller is told. */
  function Committed(s: State, t: Txn, d: Db): State
    requires t.phase.Working?
  {
    if Answers(t) then Ended(s, d, t.call, CommitAnswer(t.phase.goal))
    else if PaysOut(t) then
      s.(db := d, txns := map[],
         slips := s.slips + [Slip(t.call, Settles(PaymentRow(t.phase.goal.pid, t.call.oid, t.call.outcome)))])
    else s.(db := d, txns := map[])
  }

  lemma CommitAlone(s: State, t: Txn, d: Db)
    requires Good(Solo(s, t)) && t.phase.Working? && t.plan == [] && RunAll(s.db, t.done + t.plan) == Some(d)
    ensures Enabled(Solo(s, t), Commit(ME))
    ensures After(Solo(s, t), Commit(ME)) == Committed(s, t, d)
  {
    hide Good, RunAll, Publish, PaymentRow;
    SoloKnows(s, t);
    assert t.done + t.plan == t.done;
    assert Solo(s, t).txns - {ME} == map[];
  }

  lemma ExecuteAlone(s: State, t: Txn, d: Db)
    requires Good(Solo(s, t)) && t.phase.Working? && t.plan != [] && RunAll(s.db, t.done + t.plan) == Some(d)
    ensures Hits(View(s.db, t), t.plan[0]) && Enabled(Solo(s, t), Execute(ME))
    ensures var n := Advance(s.db, t, t.plan[0]).(plan := t.plan[1..]);
            && After(Solo(s, t), Execute(ME)) == Solo(s, n) && n.done + n.plan == t.done + t.plan
  {
    hide Good, RunAll, Publish, Hits, Absorb, LocksOf;
    SoloKnows(s, t);
    PrefixRuns(s.db, t.done, t.plan);
    HitAlone(s, t);
    SkipHead(t, t.plan[0]);
  }

  lemma HitAlone(s: State, t: Txn)
    requires t.phase.Working? && t.plan != [] && Hits(View(s.db, t), t.plan[0])
    ensures Enabled(Solo(s, t), Execute(ME))
    ensures After(Solo(s, t), Execute(ME)) == Solo(s, Advance(s.db, t, t.plan[0]).(plan := t.plan[1..]))
  {
    hide Publish, Hits, Absorb, LocksOf;
    SoloIsFree(s, t, LocksOf(t.plan[0]));
    var n := Advance(s.db, t, t.plan[0]).(plan := t.plan[1..]);
    assert Solo(s, t).txns[ME := n] == map[ME := n];
  }

  /** A plan none of whose statements misses is carried out and committed. */
  lemma {:induction false} PlanRuns(s: State, t: Txn, d: Db) returns (steps: seq<Step>)
    requires Good(Solo(s, t)) && t.phase.Working? && RunAll(s.db, t.done + t.plan) == Some(d)
    ensures Path(Solo(s, t), steps, Committed(s, t, d)) && TxnSteps(steps)
    decreases |t.plan|
  {
    hide Good, RunAll, Enabled, After, Path, Hits, Absorb, LocksOf, Publish, Ended, PaymentRow;
    if t.plan == [] {
      CommitAlone(s, t, d);
      PathOne(Solo(s, t), Commit(ME));
      steps := [Commit(ME)];
    } else {
      ExecuteAlone(s, t, d);
      StepKeepsGood(Solo(s, t), Execute(ME));
      var rest := PlanRuns(s, Advance(s.db, t, t.plan[0]).(plan := t.plan[1..]), d);
      PathCons(Solo(s, t), Execute(ME), rest, Committed(s, t, d));
      steps := [Execute(ME)] + rest;
    }
  }

  // ---------------------------------------------------------------- the steps of Reserve

  function ClaimedTxn(c: Call, v: Env): Txn
    requires Request(c)
  {
    Txn(c, Claimed(RowOf(c, v)), [], [OnKey(c.key, InsertKey(RowOf(c, v)))], EMPTY.(keys := map[c.key := RowOf(c, v)]),
        {KeyLock(c.key)}, None)
  }

  function GuardedTxn(c: Call, v: Env): Txn
    requires Request(c)
  {
    ClaimedTxn(c, v).(phase := Guarded(RowOf(c, v)), adv := Some((c.saleId, c.userId)))
  }

  function SeenTxn(db: Db, c: Call, v: Env): Txn
    requires Request(c) && c.saleId in db.sales && db.sales[c.saleId].productId in db.products
  {
    var sale := db.sales[c.saleId];
    var p := db.products[sale.productId];
    GuardedTxn(c, v).(phase := SaleSeen(RowOf(c, v), sale.productId, sale.maxPerUser, p.price, p.currency))
  }

  ghost function OpeningTxn(db: Db, c: Call, v: Env): Txn
    requires Request(c) && c.saleId in db.sales && db.sales[c.saleId].productId in db.products
  {
    var w := OpeningOf(db, c, v);
    GuardedTxn(c, v).(phase := Working(Opens(w, Total(ActiveBy(c.saleId, c.userId), db.reservations))),
                      plan := OpenScript(w)[1..],
                      locks := {KeyLock(c.key)} + {ReservationLock(v.rid), OrderLock(v.oid)})
  }

  lemma BeginAlone(s: State, c: Call)
    requires s.txns == map[] && Request(c)
    ensures Enabled(s, Begin(ME, c)) && After(s, Begin(ME, c)) == Solo(s, NewTxn(c))
  {
  }

  lemma ClaimAlone(s: State, c: Call, v: Env)
    requires Request(c) && c.key !in s.db.keys
    ensures Enabled(Solo(s, NewTxn(c)), Claim(ME, v.keyExpiresAt))
    ensures After(Solo(s, NewTxn(c)), Claim(ME, v.keyExpiresAt)) == Solo(s, ClaimedTxn(c, v))
  {
    hide ClaimRow;
    SoloIsFree(s, NewTxn(c), {KeyLock(c.key)});
    assert c.key !in View(s.db, NewTxn(c)).keys;
    var claim := OnKey(c.key, InsertKey(RowOf(c, v)));
    assert [] + [claim] == [claim] && map[][c.key := RowOf(c, v)] == map[c.key := RowOf(c, v)];
    assert Advance(s.db, NewTxn(c), claim).(phase := Claimed(RowOf(c, v))) == ClaimedTxn(c, v);
    assert Solo(s, NewTxn(c)).txns[ME := ClaimedTxn(c, v)] == map[ME := ClaimedTxn(c, v)];
  }

  lemma AdviseAlone(s: State, c: Call, v: Env)
    requires Request(c)
    ensures Enabled(Solo(s, ClaimedTxn(c, v)), Advise(ME))
    ensures After(Solo(s, ClaimedTxn(c, v)), Advise(ME)) == Solo(s, GuardedTxn(c, v))
  {
    hide ClaimRow;
    assert Solo(s, ClaimedTxn(c, v)).txns[ME := GuardedTxn(c, v)] == map[ME := GuardedTxn(c, v)];
  }

  lemma ReadSaleAlone(s: State, c: Call, v: Env)
    requires Request(c)
    ensures Enabled(Solo(s, GuardedTxn(c, v)), ReadSale(ME, v.now))
    ensures var refusal := SaleRefusal(s.db, c.saleId, v.now);
            After(Solo(s, GuardedTxn(c, v)), ReadSale(ME, v.now)) ==
            Solo(s, if refusal.Some? then Refusing(GuardedTxn(c, v), RowOf(c, v), refusal.value)
                    else SeenTxn(s.db, c, v))
  {
    hide ClaimRow;
    var refusal := SaleRefusal(s.db, c.saleId, v.now);
    var n := if refusal.Some? then Refusing(GuardedTxn(c, v), RowOf(c, v), refusal.value) else SeenTxn(s.db, c, v);
    assert Solo(s, GuardedTxn(c, v)).txns[ME := n] == map[ME := n];
  }

  lemma ReadSumAlone(s: State, c: Call, v: Env)
    requires Request(c) && SaleRefusal(s.db, c.saleId, v.now).None?
    requires v.rid !in s.db.reservations && v.oid !in s.db.orders
    ensures Enabled(Solo(s, SeenTxn(s.db, c, v)), ReadSum(ME, v.rid, v.oid, v.until))
    ensures After(Solo(s, SeenTxn(s.db, c, v)), ReadSum(ME, v.rid, v.oid, v.until)) ==
            Solo(s, if Screen(s.db, c, v.now).None? then OpeningTxn(s.db, c, v)
                    else Refusing(SeenTxn(s.db, c, v), RowOf(c, v), PurchaseLimitExceeded))
  {
    hide ClaimRow, Total, OpenScript, Wrap64;
    SoloIsFree(s, SeenTxn(s.db, c, v), {ReservationLock(v.rid), OrderLock(v.oid)});
    var n := if Screen(s.db, c, v.now).None? then OpeningTxn(s.db, c, v)
             else Refusing(SeenTxn(s.db, c, v), RowOf(c, v), PurchaseLimitExceeded);
    assert Solo(s, SeenTxn(s.db, c, v)).txns[ME := n] == map[ME := n];
  }

  // ---------------------------------------------------------------- from each branch to the end

  /** A refusal once decided. */
  lemma RefusalEnds(s: State, t: Txn, refusal: Refusal) returns (steps: seq<Step>)
    requires Good(Solo(s, t)) && t.call.ReserveCall? && t.phase.Working? && t.phase.goal.Refuses?
    requires t.phase.goal.refusal == refusal && t.call.key !in s.db.keys
    ensures Path(Solo(s, t), steps,
                 Ended(s, Refuse(s.db, t.call.key, t.phase.goal.row, refusal), t.call, Refused(refusal)))
    ensures TxnSteps(steps)
  {
    hide Good, RunAll, Path, RefuseScript, Refuse, Ended;
    RefusalPlan(s, t);
    RefuseRuns(s.db, t.call.key, t.phase.goal.row, refusal);
    RefuseScriptIsRefuse(s.db, t.call.key, t.phase.goal.row, refusal);
    steps := PlanRuns(s, t, Refuse(s.db, t.call.key, t.phase.goal.row, refusal));
  }

  lemma RefusalPlan(s: State, t: Txn)
    requires Good(Solo(s, t)) && t.call.ReserveCall? && t.phase.Working? && t.phase.goal.Refuses?
    ensures t.done + t.plan == RefuseScript(t.call.key, t.phase.goal.row, t.phase.goal.refusal)
  {
    hide Good, RefuseScript, RunAll, Publish, Serial, Covered;
    SoloKnows(s, t);
  }

  lemma OpeningPlan(db: Db, c: Call, v: Env)
    requires Request(c) && c.saleId in db.sales && db.sales[c.saleId].productId in db.products
    ensures var (t, w) := (OpeningTxn(db, c, v), OpeningOf(db, c, v));
            && t.done + t.plan == OpenScript(w) && t.plan[0] == OnSale(c.saleId, Spend(c.quantity))
            && |OpenScript(w)| == 7 && OpenScript(w)[1..][1..][0] == OnStock(w.productId, Take(c.quantity))
            && RowOf(c, v) == ClaimOf(w) && w.quantity == c.quantity && w.saleId == c.saleId && w.key == c.key
            && w.rid == v.rid && w.oid == v.oid && w.productId == db.sales[c.saleId].productId
  {
    hide Total, Wrap64, ReservationText;
  }

  /** The whole reservation. */
  lemma OpeningEnds(s: State, c: Call, v: Env) returns (steps: seq<Step>)
    requires Request(c) && Screen(s.db, c, v.now).None? && Good(Solo(s, OpeningTxn(s.db, c, v))) && c.key !in s.db.keys
    requires s.db.sales[c.saleId].remaining >= c.quantity && !StockShort(s.db, c)
    requires OpeningOf(s.db, c, v).amount >= 0 && v.rid !in s.db.reservations && v.oid !in s.db.orders
    ensures var w := OpeningOf(s.db, c, v);
            w.productId in s.db.inventory && w.saleId in s.db.sales && w.quantity >= 1 &&
            Path(Solo(s, OpeningTxn(s.db, c, v)), steps, Ended(s, Open(s.db, w), c, Created(ReceiptOf(w))))
    ensures TxnSteps(steps)
  {
    hide Good, RunAll, Path, OpenScript, Open, Ended, OpeningOf, RowOf;
    var t, w := OpeningTxn(s.db, c, v), OpeningOf(s.db, c, v);
    OpeningPlan(s.db, c, v);
    OpenRuns(s.db, w);
    OpenScriptIsOpen(s.db, w);
    steps := PlanRuns(s, t, Open(s.db, w));
  }

  /** The allocation is used up: the first guarded update misses. */
  lemma AllocationMisses(s: State, c: Call, v: Env)
    requires Request(c) && Screen(s.db, c, v.now).None? && s.db.sales[c.saleId].remaining < c.quantity
    ensures Enabled(Solo(s, OpeningTxn(s.db, c, v)), Execute(ME))
    ensures After(Solo(s, OpeningTxn(s.db, c, v)), Execute(ME))
            == Solo(s, Refusing(OpeningTxn(s.db, c, v), RowOf(c, v), AllocationSoldOut))
  {
    hide OpenScript, OpeningOf, RowOf, Total, ClaimOf;
    OpeningPlan(s.db, c, v);
    var t := OpeningTxn(s.db, c, v);
    assert View(s.db, t).sales == s.db.sales;
    var n := Refusing(t, RowOf(c, v), AllocationSoldOut);
    assert Solo(s, t).txns[ME := n] == map[ME := n];
  }

  /** After the first guarded update. */
  ghost function SpentTxn(db: Db, c: Call, v: Env): Txn
    requires Request(c) && c.saleId in db.sales && db.sales[c.saleId].productId in db.products
  {
    var t, sale := OpeningTxn(db, c, v), db.sales[c.saleId];
    t.(done := t.done + [OnSale(c.saleId, Spend(c.quantity))], plan := OpenScript(OpeningOf(db, c, v))[1..][1..],
       own := t.own.(sales := map[c.saleId := sale.(remaining := sale.remaining - c.quantity)]),
       locks := t.locks + {SaleLock(c.saleId)})
  }

  lemma SpendAlone(s: State, c: Call, v: Env)
    requires Request(c) && Screen(s.db, c, v.now).None? && s.db.sales[c.saleId].remaining >= c.quantity
    ensures Enabled(Solo(s, OpeningTxn(s.db, c, v)), Execute(ME))
    ensures After(Solo(s, OpeningTxn(s.db, c, v)), Execute(ME)) == Solo(s, SpentTxn(s.db, c, v))
  {
    hide OpenScript, OpeningOf, RowOf, Total, ClaimOf;
    OpeningPlan(s.db, c, v);
    var t := OpeningTxn(s.db, c, v);
    assert View(s.db, t).sales == s.db.sales;
    SoloIsFree(s, t, LocksOf(t.plan[0]));
    assert Solo(s, t).txns[ME := SpentTxn(s.db, c, v)] == map[ME := SpentTxn(s.db, c, v)];
  }

  function LosingTxn(t: Txn, row: KeyRow): Txn
    requires t.call.ReserveCall?
  {
    t.(phase := Working(Loses(row)),
       plan := [Emit(UnitsLost(t.call.saleId, t.call.quantity)),
                OnKey(t.call.key, SetResponse(Declined(ProductSoldOut)))])
  }

  lemma SpentSees(db: Db, c: Call, v: Env)
    requires Request(c) && c.saleId in db.sales && db.sales[c.saleId].productId in db.products
    ensures var t := SpentTxn(db, c, v);
            && t.call == c && View(db, t).inventory == db.inventory
            && t.phase.Working? && t.phase.goal.Opens?
            && t.phase.goal.w.quantity >= 1 && ClaimOf(t.phase.goal.w) == RowOf(c, v)
            && t.plan != [] && t.plan[0] == OnStock(db.sales[c.saleId].productId, Take(c.quantity))
  {
    hide OpenScript, OpeningOf, RowOf, Total, ClaimOf;
    OpeningPlan(db, c, v);
  }

  lemma StockMisses(s: State, c: Call, v: Env)
    requires Request(c) && Screen(s.db, c, v.now).None? && StockShort(s.db, c)
    ensures Enabled(Solo(s, SpentTxn(s.db, c, v)), Execute(ME))
    ensures SpentTxn(s.db, c, v).call == c
    ensures After(Solo(s, SpentTxn(s.db, c, v)), Execute(ME)) == Solo(s, LosingTxn(SpentTxn(s.db, c, v), RowOf(c, v)))
  {
    hide SpentTxn, RowOf, ClaimOf, Publish, Screen;
    SpentSees(s.db, c, v);
    var t := SpentTxn(s.db, c, v);
    var n := LosingTxn(t, RowOf(c, v));
    assert Solo(s, t).txns[ME := n] == map[ME := n];
  }

  lemma LosingPlan(s: State, t: Txn)
    requires Good(Solo(s, t)) && t.phase.Working? && t.phase.goal.Loses?
    ensures t.call.ReserveCall?
    ensures t.done + t.plan == LoseScript(t.call.key, t.phase.goal.row, t.call.saleId, t.call.quantity)
  {
    hide Good, LoseScript, RunAll, Publish, Serial, Covered;
    SoloKnows(s, t);
  }

  /** The second guarded update misses, and the first one stays. */
  lemma LosingEnds(s: State, c: Call, v: Env) returns (steps: seq<Step>)
    requires Request(c) && Screen(s.db, c, v.now).None? && Good(Solo(s, OpeningTxn(s.db, c, v))) && c.key !in s.db.keys
    requires s.db.sales[c.saleId].remaining >= c.quantity && StockShort(s.db, c)
    ensures Path(Solo(s, OpeningTxn(s.db, c, v)), steps,
                 Ended(s, RefuseAndLose(s.db, c.key, RowOf(c, v), c.saleId, c.quantity), c, Refused(ProductSoldOut)))
    ensures TxnSteps(steps)
  {
    hide Good, RunAll, Path, LoseScript, RefuseAndLose, Ended, RowOf, OpeningTxn, SpentTxn, Enabled, After, StockShort;
    var t0, t1 := OpeningTxn(s.db, c, v), SpentTxn(s.db, c, v);
    SpendAlone(s, c, v);
    StepKeepsGood(Solo(s, t0), Execute(ME));
    StockMisses(s, c, v);
    StepKeepsGood(Solo(s, t1), Execute(ME));
    SpentCall(s.db, c, v);
    var t2 := LosingTxn(t1, RowOf(c, v));
    LosingPlan(s, t2);
    LoseRuns(s.db, c.key, RowOf(c, v), c.saleId, c.quantity);
    LoseScriptIsLose(s.db, c.key, RowOf(c, v), c.saleId, c.quantity);
    var d := RefuseAndLose(s.db, c.key, RowOf(c, v), c.saleId, c.quantity);
    var rest := PlanRuns(s, t2, d);
    var n := Ended(s, d, c, Refused(ProductSoldOut));
    PathCons(Solo(s, t1), Execute(ME), rest, n);
    PathCons(Solo(s, t0), Execute(ME), [Execute(ME)] + rest, n);
    steps := [Execute(ME)] + ([Execute(ME)] + rest);
  }

  lemma SpentCall(db: Db, c: Call, v: Env)
    requires Request(c) && c.saleId in db.sales && db.sales[c.saleId].productId in db.products
    ensures SpentTxn(db, c, v).call == c && OpeningTxn(db, c, v).call == c
  {
  }

  // ---------------------------------------------------------------- the whole call

  function CallEnds(s: State, c: Call, outcome: (Db, Reply)): State {
    if outcome.1.Answered? then Ended(s, outcome.0, c, outcome.1.answer) else s
  }

  lemma AbortAlone(s: State, t: Txn)
    requires s.txns == map[]
    ensures Path(Solo(s, t), [Abort(ME)], s)
  {
    assert Enabled(Solo(s, t), Abort(ME)) && After(Solo(s, t), Abort(ME)) == s by {
      assert Solo(s, t).txns - {ME} == map[];
    }
    PathOne(Solo(s, t), Abort(ME));
  }

  /** From the two guarded updates on. */
  lemma TakingEnds(s: State, c: Call, v: Env) returns (steps: seq<Step>)
    requires s.txns == map[] && Request(c) && Screen(s.db, c, v.now).None? && c.key !in s.db.keys
    requires Good(Solo(s, OpeningTxn(s.db, c, v))) && v.rid !in s.db.reservations && v.oid !in s.db.orders
    ensures Path(Solo(s, OpeningTxn(s.db, c, v)), steps, CallEnds(s, c, TakeUnits(s.db, c, v))) && TxnSteps(steps)
  {
    hide Good, Path, Ended, RowOf, OpeningTxn, OpeningOf, Enabled, After, Open, Refuse, RefuseAndLose, StockShort,
         Screen;
    var t := OpeningTxn(s.db, c, v);
    if s.db.sales[c.saleId].remaining < c.quantity {
      AllocationMisses(s, c, v);
      StepKeepsGood(Solo(s, t), Execute(ME));
      SpentCall(s.db, c, v);
      var n := Refusing(t, RowOf(c, v), AllocationSoldOut);
      var rest := RefusalEnds(s, n, AllocationSoldOut);
      PathCons(Solo(s, t), Execute(ME), rest, CallEnds(s, c, TakeUnits(s.db, c, v)));
      steps := [Execute(ME)] + rest;
    } else if StockShort(s.db, c) {
      steps := LosingEnds(s, c, v);
    } else if OpeningOf(s.db, c, v).amount < 0 {
      AbortAlone(s, t);
      steps := [Abort(ME)];
    } else {
      steps := OpeningEnds(s, c, v);
    }
  }

  /** From the reads on. */
  lemma ReadingEnds(s: State, c: Call, v: Env) returns (steps: seq<Step>)
    requires s.txns == map[] && Request(c) && c.key !in s.db.keys
    requires Good(Solo(s, GuardedTxn(c, v))) && v.rid !in s.db.reservations && v.oid !in s.db.orders
    ensures Path(Solo(s, GuardedTxn(c, v)), steps, CallEnds(s, c, Handle(s.db, c, v))) && TxnSteps(steps)
  {
    hide Good, Path, Ended, RowOf, OpeningTxn, Enabled, After, Refuse, TakeUnits, SaleRefusal, Total;
    var t, n := GuardedTxn(c, v), CallEnds(s, c, Handle(s.db, c, v));
    var refusal := SaleRefusal(s.db, c.saleId, v.now);
    ReadSaleAlone(s, c, v);
    StepKeepsGood(Solo(s, t), ReadSale(ME, v.now));
    var rest;
    if refusal.Some? {
      rest := RefusalEnds(s, Refusing(t, RowOf(c, v), refusal.value), refusal.value);
    } else {
      rest := SummingEnds(s, c, v);
    }
    PathCons(Solo(s, t), ReadSale(ME, v.now), rest, n);
    steps := [ReadSale(ME, v.now)] + rest;
  }

  lemma SummingEnds(s: State, c: Call, v: Env) returns (steps: seq<Step>)
    requires s.txns == map[] && Request(c) && c.key !in s.db.keys && SaleRefusal(s.db, c.saleId, v.now).None?
    requires Good(Solo(s, SeenTxn(s.db, c, v))) && v.rid !in s.db.reservations && v.oid !in s.db.orders
    ensures Path(Solo(s, SeenTxn(s.db, c, v)), steps, CallEnds(s, c, Handle(s.db, c, v))) && TxnSteps(steps)
  {
    hide Good, Path, Ended, RowOf, OpeningTxn, Enabled, After, Refuse, TakeUnits, Total;
    var t, n := SeenTxn(s.db, c, v), CallEnds(s, c, Handle(s.db, c, v));
    var read := ReadSum(ME, v.rid, v.oid, v.until);
    ReadSumAlone(s, c, v);
    StepKeepsGood(Solo(s, t), read);
    var rest;
    if Screen(s.db, c, v.now).Some? {
      rest := RefusalEnds(s, Refusing(t, RowOf(c, v), PurchaseLimitExceeded), PurchaseLimitExceeded);
    } else {
      rest := TakingEnds(s, c, v);
    }
    PathCons(Solo(s, t), read, rest, n);
    steps := [read] + rest;
  }

  /** A known key is answered from its row. */
  lemma ReplayAlone(s: State, c: Call, v: Env)
    requires s.txns == map[] && Request(c) && c.key in s.db.keys
    ensures Path(Solo(s, NewTxn(c)), [Claim(ME, v.keyExpiresAt), ReadReplay(ME)], CallEnds(s, c, Handle(s.db, c, v)))
  {
    var conflicted := NewTxn(c).(phase := Conflicted);
    var n := CallEnds(s, c, Handle(s.db, c, v));
    assert Solo(s, NewTxn(c)).txns[ME := conflicted] == map[ME := conflicted];
    assert Enabled(Solo(s, NewTxn(c)), Claim(ME, v.keyExpiresAt));
    assert After(Solo(s, NewTxn(c)), Claim(ME, v.keyExpiresAt)) == Solo(s, conflicted);
    assert Solo(s, conflicted).txns - {ME} == map[];
    assert Enabled(Solo(s, conflicted), ReadReplay(ME)) && After(Solo(s, conflicted), ReadReplay(ME)) == n;
    hide Enabled, After;
    PathOne(Solo(s, conflicted), ReadReplay(ME));
    PathCons(Solo(s, NewTxn(c)), Claim(ME, v.keyExpiresAt), [ReadReplay(ME)], n);
    assert [Claim(ME, v.keyExpiresAt)] + [ReadReplay(ME)] == [Claim(ME, v.keyExpiresAt), ReadReplay(ME)];
  }

  /** From a quiet state, one Reserve transaction of the machine can end exactly as the operation does:
      same tables, same answer, for every branch. */
  lemma ReserveAlone(s: State, c: Call, v: Env) returns (steps: seq<Step>)
    requires Good(s) && s.txns == map[] && Request(c) && v.rid !in s.db.reservations && v.oid !in s.db.orders
    ensures Path(s, steps, CallEnds(s, c, Handle(s.db, c, v))) && TxnSteps(steps)
  {
    hide Good, Path, RowOf, Enabled, After, Handle, CallEnds;
    var n := CallEnds(s, c, Handle(s.db, c, v));
    BeginAlone(s, c);
    StepKeepsGood(s, Begin(ME, c));
    var rest;
    if c.key in s.db.keys {
      ReplayAlone(s, c, v);
      rest := [Claim(ME, v.keyExpiresAt), ReadReplay(ME)];
    } else {
      ClaimAlone(s, c, v);
      StepKeepsGood(Solo(s, NewTxn(c)), Claim(ME, v.keyExpiresAt));
      AdviseAlone(s, c, v);
      StepKeepsGood(Solo(s, ClaimedTxn(c, v)), Advise(ME));
      rest := ReadingEnds(s, c, v);
      PathCons(Solo(s, ClaimedTxn(c, v)), Advise(ME), rest, n);
      PathCons(Solo(s, NewTxn(c)), Claim(ME, v.keyExpiresAt), [Advise(ME)] + rest, n);
      rest := [Claim(ME, v.keyExpiresAt)] + ([Advise(ME)] + rest);
    }
    PathCons(s, Begin(ME, c), rest, n);
    steps := [Begin(ME, c)] + rest;
  }

  // ---------------------------------------------------------------- the other transactions

  /** Confirm and cancel. */
  lemma MoveAlone(s: State, rid: Id, oid: Id, to: ReservationState) returns (steps: seq<Step>)
    requires Good(s) && s.txns == map[] && CanMove(s.db, rid, oid, to) && (to == Confirmed || to == Cancelled)
    ensures Path(s, steps, s.(db := Move(s.db, rid, oid, to))) && TxnSteps(steps)
  {
    hide Good, Inv, Path, MoveScript, Move, RunAll, Enabled, After;
    var c, r := MoveCall(rid, to), s.db.reservations[rid];
    var t := NewTxn(c);
    var n := t.(phase := Working(Moves(oid, r)), plan := MoveScript(rid, oid, r, to), locks := {ReservationLock(rid)});
    MoveBegins(s, rid, oid, to);
    StepKeepsGood(s, Begin(ME, c));
    StepKeepsGood(Solo(s, t), LockReservation(ME, oid));
    MoveScriptRuns(s, rid, oid, to);
    assert n.done + n.plan == n.plan;
    var rest := PlanRuns(s, n, Move(s.db, rid, oid, to));
    var end := s.(db := Move(s.db, rid, oid, to));
    PathCons(Solo(s, t), LockReservation(ME, oid), rest, end);
    PathCons(s, Begin(ME, c), [LockReservation(ME, oid)] + rest, end);
    steps := [Begin(ME, c)] + ([LockReservation(ME, oid)] + rest);
  }

  lemma MoveScriptRuns(s: State, rid: Id, oid: Id, to: ReservationState)
    requires Good(s) && CanMove(s.db, rid, oid, to) && (to == Confirmed || to == Cancelled)
    ensures RunAll(s.db, MoveScript(rid, oid, s.db.reservations[rid], to)) == Some(Move(s.db, rid, oid, to))
  {
    hide Good, SalesOk, LimitOk, OrdersOk, KeysOk, PaymentsOk, JournalOk, MoveScript, Move, RunAll;
    GoodHasInv(s);
    GuardNeverMisses(s.db, rid);
    MoveScriptIsMove(s.db, rid, oid, to);
  }

  lemma GoodHasInv(s: State)
    requires Good(s)
    ensures Inv(s.db)
  {
    hide Inv, TxnOk, Apart;
  }

  lemma MoveBegins(s: State, rid: Id, oid: Id, to: ReservationState)
    requires s.txns == map[] && CanMove(s.db, rid, oid, to) && (to == Confirmed || to == Cancelled)
    ensures var (c, r) := (MoveCall(rid, to), s.db.reservations[rid]);
            var t := NewTxn(c);
            && Enabled(s, Begin(ME, c)) && After(s, Begin(ME, c)) == Solo(s, t)
            && Enabled(Solo(s, t), LockReservation(ME, oid))
            && After(Solo(s, t), LockReservation(ME, oid)) ==
               Solo(s, t.(phase := Working(Moves(oid, r)), plan := MoveScript(rid, oid, r, to),
                          locks := {ReservationLock(rid)}))
  {
    hide MoveScript;
    var c, r := MoveCall(rid, to), s.db.reservations[rid];
    var t := NewTxn(c);
    SoloIsFree(s, t, {ReservationLock(rid)});
    var n := t.(phase := Working(Moves(oid, r)), plan := MoveScript(rid, oid, r, to),
                locks := t.locks + {ReservationLock(rid)});
    assert t.locks + {ReservationLock(rid)} == {ReservationLock(rid)};
    assert Solo(s, t).txns[ME := n] == map[ME := n];
  }

  /** An expiry worker. */
  lemma ExpireAlone(s: State, batch: seq<Due>, limit: nat, at: int) returns (steps: seq<Step>)
    requires Good(s) && s.txns == map[] && 1 <= limit <= 1000
    requires BatchOk(s.db, batch) && TakesDue(ExpireCall(limit, at), batch)
    ensures Path(s, steps, s.(db := ExpireAll(s.db, batch))) && TxnSteps(steps)
  {
    hide Good, Path, ExpireScript, ExpireAll, RunAll, Enabled, After, BatchOk, DueLocks;
    var c := ExpireCall(limit, at);
    var t := NewTxn(c);
    var n := t.(phase := Working(Expires(batch)), plan := ExpireScript(batch), locks := DueLocks(batch));
    ExpireBegins(s, batch, limit, at);
    StepKeepsGood(s, Begin(ME, c));
    StepKeepsGood(Solo(s, t), SelectDue(ME, batch));
    GoodHasInv(s);
    ExpireScriptIsExpireAll(s.db, batch);
    assert n.done + n.plan == n.plan;
    var rest := PlanRuns(s, n, ExpireAll(s.db, batch));
    var end := s.(db := ExpireAll(s.db, batch));
    PathCons(Solo(s, t), SelectDue(ME, batch), rest, end);
    PathCons(s, Begin(ME, c), [SelectDue(ME, batch)] + rest, end);
    steps := [Begin(ME, c)] + ([SelectDue(ME, batch)] + rest);
  }

  /** The batch ExpireBatch selects is one the worker can take. */
  lemma SelectedAlone(s: State, batch: seq<Due>, limit: nat, at: int) returns (steps: seq<Step>)
    requires Good(s) && s.txns == map[] && 1 <= limit <= 1000 && Selected(s.db, batch, limit, at)
    ensures Path(s, steps, s.(db := ExpireAll(s.db, batch))) && TxnSteps(steps)
  {
    hide Good, Path, ExpireAll, DueOk;
    forall i | 0 <= i < |batch| ensures batch[i].row.expiresAt <= at {
      assert batch[i] in batch && batch[i].rid in IdsOf(batch);
      DueRow(s.db, batch, i);
    }
    steps := ExpireAlone(s, batch, limit, at);
  }

  lemma ExpireBegins(s: State, batch: seq<Due>, limit: nat, at: int)
    requires s.txns == map[] && 1 <= limit <= 1000
    requires BatchOk(s.db, batch) && TakesDue(ExpireCall(limit, at), batch)
    ensures var c := ExpireCall(limit, at);
            var t := NewTxn(c);
            && Enabled(s, Begin(ME, c)) && After(s, Begin(ME, c)) == Solo(s, t)
            && Enabled(Solo(s, t), SelectDue(ME, batch))
            && After(Solo(s, t), SelectDue(ME, batch)) ==
               Solo(s, t.(phase := Working(Expires(batch)), plan := ExpireScript(batch), locks := DueLocks(batch)))
  {
    hide ExpireScript, BatchOk, TakesDue, DueLocks;
    var t := NewTxn(ExpireCall(limit, at));
    SoloIsFree(s, t, DueLocks(batch));
    var n := t.(phase := Working(Expires(batch)), plan := ExpireScript(batch), locks := t.locks + DueLocks(batch));
    assert t.locks + DueLocks(batch) == DueLocks(batch);
    assert Solo(s, t).txns[ME := n] == map[ME := n];
  }

  // A payment callback.

  function PayerTxn(c: Call, pid: Id): Txn
    requires c.PayCall?
  {
    var row := PaymentRow(pid, c.oid, c.outcome).(status := Waiting);
    Txn(c, PayClaimed(pid), [], [OnPayment(c.payKey, InsertPayment(row))], EMPTY.(payments := map[c.payKey := row]),
        {PaymentLock(c.payKey)}, None)
  }

  lemma PayBegins(s: State, c: Call, pid: Id)
    requires s.txns == map[] && c.PayCall? && c.payKey !in s.db.payments && c.oid in s.db.orders
    ensures Enabled(s, Begin(ME, c)) && After(s, Begin(ME, c)) == Solo(s, NewTxn(c))
    ensures Enabled(Solo(s, NewTxn(c)), ClaimPayment(ME, pid))
    ensures After(Solo(s, NewTxn(c)), ClaimPayment(ME, pid)) == Solo(s, PayerTxn(c, pid))
  {
    hide PaymentRow;
    var t, row := NewTxn(c), PaymentRow(pid, c.oid, c.outcome).(status := Waiting);
    SoloIsFree(s, t, {PaymentLock(c.payKey)});
    assert c.payKey !in View(s.db, t).payments;
    var insert := OnPayment(c.payKey, InsertPayment(row));
    assert [] + [insert] == [insert] && map[][c.payKey := row] == map[c.payKey := row];
    assert Advance(s.db, t, insert).(phase := PayClaimed(pid)) == PayerTxn(c, pid);
    assert Solo(s, t).txns[ME := PayerTxn(c, pid)] == map[ME := PayerTxn(c, pid)];
  }

  lemma PayLocks(s: State, c: Call, pid: Id)
    requires c.PayCall? && CanPay(s.db, c.payKey, c.oid, c.outcome)
    ensures var rid := s.db.orders[c.oid].reservationId;
            && Enabled(Solo(s, PayerTxn(c, pid)), LockOrder(ME))
            && After(Solo(s, PayerTxn(c, pid)), LockOrder(ME))
               == Solo(s, LockedPayer(PayerTxn(c, pid), rid, s.db.reservations[rid]))
  {
    hide PaymentRow, PayScript;
    var t, rid := PayerTxn(c, pid), s.db.orders[c.oid].reservationId;
    var r := s.db.reservations[rid];
    SoloIsFree(s, t, {OrderLock(c.oid), ReservationLock(rid)});
    PayStartsWithKey(c.payKey, pid, c.oid, rid, r, c.outcome);
    assert Solo(s, t).txns[ME := LockedPayer(t, rid, r)] == map[ME := LockedPayer(t, rid, r)];
  }

  lemma PayPlan(db: Db, c: Call, pid: Id, rid: Id, r: Reservation)
    requires c.PayCall?
    ensures var n := LockedPayer(PayerTxn(c, pid), rid, r);
            && n.done + n.plan == PayScript(c.payKey, pid, c.oid, rid, r, c.outcome)
            && n.call == c && n.phase == Working(Pays(pid, rid, r))
  {
    hide PaymentRow, PayScript;
    PayStartsWithKey(c.payKey, pid, c.oid, rid, r, c.outcome);
  }

  /** A payment callback under a new key. */
  lemma PayAlone(s: State, c: Call, pid: Id) returns (steps: seq<Step>)
    requires Good(s) && s.txns == map[] && c.PayCall? && Payable(s.db, c.payKey, c.oid, c.outcome)
    ensures Path(s, steps, s.(db := Pay(s.db, c.payKey, pid, c.oid, c.outcome),
                              slips := s.slips + [Slip(c, Settles(PaymentRow(pid, c.oid, c.outcome)))]))
    ensures TxnSteps(steps)
  {
    hide Good, Path, PayScript, Pay, RunAll, Enabled, After, PaymentRow, CanMove, SellGuard, LockedPayer;
    var rid := s.db.orders[c.oid].reservationId;
    var r := s.db.reservations[rid];
    var t := PayerTxn(c, pid);
    var n := LockedPayer(t, rid, r);
    PayBegins(s, c, pid);
    StepKeepsGood(s, Begin(ME, c));
    StepKeepsGood(Solo(s, NewTxn(c)), ClaimPayment(ME, pid));
    PayLocks(s, c, pid);
    StepKeepsGood(Solo(s, t), LockOrder(ME));
    PayScriptIsPay(s.db, c.payKey, pid, c.oid, c.outcome);
    PayPlan(s.db, c, pid, rid, r);
    var d := Pay(s.db, c.payKey, pid, c.oid, c.outcome);
    var rest := PlanRuns(s, n, d);
    var end := s.(db := d, slips := s.slips + [Slip(c, Settles(PaymentRow(pid, c.oid, c.outcome)))]);
    PathCons(Solo(s, t), LockOrder(ME), rest, end);
    PathCons(Solo(s, NewTxn(c)), ClaimPayment(ME, pid), [LockOrder(ME)] + rest, end);
    PathCons(s, Begin(ME, c), [ClaimPayment(ME, pid)] + ([LockOrder(ME)] + rest), end);
    steps := [Begin(ME, c)] + ([ClaimPayment(ME, pid)] + ([LockOrder(ME)] + rest));
  }

  /** A payment callback under a key that is already settled. */
  lemma PayReplayAlone(s: State, c: Call)
    requires s.txns == map[] && c.PayCall? && c.payKey in s.db.payments
    ensures Path(s, [Begin(ME, c), ReplayPayment(ME)],
                 s.(slips := s.slips + [Slip(c, PayReplay(s.db.payments[c.payKey], c))]))
  {
    var t := NewTxn(c);
    var end := s.(slips := s.slips + [Slip(c, PayReplay(s.db.payments[c.payKey], c))]);
    assert Enabled(s, Begin(ME, c)) && After(s, Begin(ME, c)) == Solo(s, t);
    assert Solo(s, t).txns - {ME} == map[];
    assert Enabled(Solo(s, t), ReplayPayment(ME)) && After(Solo(s, t), ReplayPayment(ME)) == end;
    hide Enabled, After;
    PathOne(Solo(s, t), ReplayPayment(ME));
    PathCons(s, Begin(ME, c), [ReplayPayment(ME)], end);
    assert [Begin(ME, c)] + [ReplayPayment(ME)] == [Begin(ME, c), ReplayPayment(ME)];
  }

  // ---------------------------------------------------------------- the catalog

  /** With nobody else about, every catalog change the database accepts is a step, and it writes these columns. */
  lemma ProductAlone(s: State, id: Id, p: Product, n: int)
    requires s.txns == map[] && 0 <= n <= INT4_MAX
    ensures id !in s.db.products && id !in s.db.inventory ==>
              Enabled(s, CreateProduct(id, p, n)) &&
              After(s, CreateProduct(id, p, n)) ==
              s.(db := s.db.(products := s.db.products[id := p], inventory := s.db.inventory[id := Stock(n, 0, 0, n)],
                             journal := s.db.journal + [StockSet(id, n)]))
    ensures id in s.db.products && id in s.db.inventory &&
            n + s.db.inventory[id].reserved + s.db.inventory[id].sold <= INT4_MAX ==>
              var t := s.db.inventory[id];
              Enabled(s, UpdateProduct(id, p, Some(n))) &&
              After(s, UpdateProduct(id, p, Some(n))) ==
              s.(db := s.db.(products := s.db.products[id := p],
                             inventory := s.db.inventory[id :=
                               t.(available := n, expectedTotal := n + t.reserved + t.sold)],
                             journal := s.db.journal + [StockSet(id, n)]))
    ensures id in s.db.products && id in s.db.inventory ==>
              Enabled(s, UpdateProduct(id, p, None)) &&
              After(s, UpdateProduct(id, p, None)) == s.(db := s.db.(products := s.db.products[id := p]))
  {
  }

  lemma SaleAlone(s: State, id: Id, sale: Sale, state: SaleState)
    requires s.txns == map[]
    ensures id !in s.db.sales && sale.productId in s.db.inventory && sale.maxPerUser > 0 &&
            0 < sale.allocation == sale.remaining <= INT4_MAX ==>
              Enabled(s, CreateSale(id, sale)) &&
              After(s, CreateSale(id, sale)) == s.(db := s.db.(sales := s.db.sales[id := sale]))
    ensures id in s.db.sales ==>
              Enabled(s, ChangeSale(id, state)) &&
              After(s, ChangeSale(id, state)) ==
              s.(db := s.db.(sales := s.db.sales[id := s.db.sales[id].(state := state)]))
    ensures forall now :: Enabled(s, PurgeKeys(now))
  {
  }
}
