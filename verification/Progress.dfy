/** A rush never sticks: Reserve transactions lock the sale row before the inventory row, so one of them
    can always go on, and every rush can be brought to its end without aborting anybody. */
module Progress {
  import opened Domain
  import opened Tables
  import opened Ledger
  import opened Statements
  import opened Scripts
  import opened Locking
  import opened Machine
  import opened MachineProofs
  import opened ExactlyOnce
  import opened Demo
  import opened Rush

  // ---------------------------------------------------------------- what each buyer holds

  /** Neither the sale row nor the inventory row. */
  predicate HoldsNeither(t: Txn, pid: Id, sid: Id) {
    SaleLock(sid) !in t.locks && StockLock(pid) !in t.locks
  }

  /** The sale row from the second statement on, the inventory row from the third on. */
  predicate OpeningHolds(t: Txn, w: Opening, pid: Id, sid: Id) {
    && w.saleId == sid && w.productId == pid && w.amount >= 0
    && ReservationLock(w.rid) in t.locks && OrderLock(w.oid) in t.locks
    && (SaleLock(sid) in t.locks <==> |t.done| >= 2)
    && (StockLock(pid) in t.locks <==> |t.done| >= 3)
  }

  ghost predicate Fits(t: Txn, pid: Id, sid: Id) {
    && Wants(t.call, sid)
    && (forall k :: KeyLock(k) in t.locks ==> k == t.call.key)
    && (t.adv.Some? ==> t.adv == Some((sid, t.call.userId)))
    && match t.phase
       case Begun => t.locks == {}
       case SaleSeen(_, productId, _, price, _) =>
         HoldsNeither(t, pid, sid) && KeyLock(t.call.key) in t.locks && productId == pid && price == PRICE
       case Working(goal) =>
         KeyLock(t.call.key) in t.locks &&
         (match goal
          case Opens(w, _) => OpeningHolds(t, w, pid, sid)
          case _ => HoldsNeither(t, pid, sid))
       case _ => HoldsNeither(t, pid, sid) && KeyLock(t.call.key) in t.locks
  }

  /** The ids chosen for the new rows are still free. */
  predicate IdsFree(db: Db, t: Txn) {
    t.phase.Working? && t.phase.goal.Opens? ==>
      t.phase.goal.w.rid !in db.reservations && t.phase.goal.w.oid !in db.orders
  }

  predicate Terms(db: Db, pid: Id, sid: Id) {
    && pid in db.products && db.products[pid].price == PRICE
    && sid in db.sales && db.sales[sid].startsAt < db.sales[sid].endsAt
  }

  ghost predicate Tidy(s: State, pid: Id, sid: Id) {
    Terms(s.db, pid, sid) && forall i :: i in s.txns ==> Fits(s.txns[i], pid, sid) && IdsFree(s.db, s.txns[i])
  }

  lemma TidyOwn(s: State, tid: nat, n: Txn, after: State, pid: Id, sid: Id)
    requires Tidy(s, pid, sid) && after == s.(txns := s.txns[tid := n]) && Fits(n, pid, sid)
    requires n.phase.Working? && n.phase.goal.Opens? ==> IdsFree(s.db, n)
    ensures Tidy(after, pid, sid)
  {
    hide Fits, Terms;
  }

  lemma OneStatementDone(s: State, tid: nat, pid: Id, sid: Id)
    requires DemoOk(s, pid, sid) && tid in s.txns && s.txns[tid].phase.SaleSeen?
    ensures |s.txns[tid].done| == 1
  {
    hide Inv, Level, Serial, Covered, Apart;
    assert TxnOk(s.db, s.txns[tid]);
  }

  lemma TidyReadSum(s: State, tid: nat, rid: Id, oid: Id, until: int, pid: Id, sid: Id)
    requires DemoOk(s, pid, sid) && Tidy(s, pid, sid) && Enabled(s, ReadSum(tid, rid, oid, until))
    ensures Tidy(After(s, ReadSum(tid, rid, oid, until)), pid, sid)
  {
    hide Free, Total, Terms, OpenScript, DemoOk;
    OneStatementDone(s, tid, pid, sid);
    var after := After(s, ReadSum(tid, rid, oid, until));
    TidyOwn(s, tid, after.txns[tid], after, pid, sid);
  }

  lemma TidyReadSale(s: State, tid: nat, now: int, pid: Id, sid: Id, units: int)
    requires RushOk(s, pid, sid, units) && Tidy(s, pid, sid) && Enabled(s, ReadSale(tid, now))
    ensures Tidy(After(s, ReadSale(tid, now)), pid, sid)
  {
    hide DemoOk, Recorded, Counted, Strangers, BuyerOk, Inv, TxnOk;
    Unpack(s, pid, sid, tid);
    var after := After(s, ReadSale(tid, now));
    TidyOwn(s, tid, after.txns[tid], after, pid, sid);
  }

  lemma TidyClaim(s: State, tid: nat, exp: int, pid: Id, sid: Id)
    requires Tidy(s, pid, sid) && Enabled(s, Claim(tid, exp)) && s.txns[tid].call.key !in s.db.keys
    ensures Tidy(After(s, Claim(tid, exp)), pid, sid)
  {
    hide Free, Terms, Hits, Absorb, Publish, ClaimRow;
    var after := After(s, Claim(tid, exp));
    TidyOwn(s, tid, after.txns[tid], after, pid, sid);
  }

  lemma TidyAdvise(s: State, tid: nat, pid: Id, sid: Id)
    requires Tidy(s, pid, sid) && Enabled(s, Advise(tid))
    ensures Tidy(After(s, Advise(tid)), pid, sid)
  {
    hide AdvisoryFree, Terms;
    var after := After(s, Advise(tid));
    TidyOwn(s, tid, after.txns[tid], after, pid, sid);
  }

  /** The statement a reservation is about to execute, by the number of those before it. */
  lemma NextOfOpening(t: Txn, w: Opening)
    requires w.quantity >= 1 && t.done + t.plan == OpenScript(w) && t.plan != [] && 1 <= |t.done|
    ensures |t.done| <= 6
    ensures |t.done| == 1 ==> t.plan[0] == OnSale(w.saleId, Spend(w.quantity))
    ensures |t.done| == 2 ==> t.plan[0] == OnStock(w.productId, Take(w.quantity))
    ensures |t.done| >= 3 ==>
              LocksOf(t.plan[0]) <= {ReservationLock(w.rid), OrderLock(w.oid), KeyLock(w.key)}
  {
    assert t.plan[0] == OpenScript(w)[|t.done|];
  }

  lemma FitsExecute(g: Db, t: Txn, pid: Id, sid: Id)
    requires TxnOk(g, t) && Fits(t, pid, sid) && BuyerOk(g, t, sid) && t.phase.Working? && t.plan != []
    requires Hits(View(g, t), t.plan[0])
    ensures Fits(Advance(g, t, t.plan[0]).(plan := t.plan[1..]), pid, sid)
  {
    hide Serial, Covered, Hits, Publish, Absorb, OpenScript;
    if t.phase.goal.Opens? {
      NextOfOpening(t, t.phase.goal.w);
    } else {
      NextOfRefusal(t, t.phase.goal.row, t.phase.goal.refusal);
    }
  }

  lemma NextOfRefusal(t: Txn, row: KeyRow, refusal: Refusal)
    requires t.call.ReserveCall? && t.done + t.plan == RefuseScript(t.call.key, row, refusal) && t.plan != []
    ensures LocksOf(t.plan[0]) == {KeyLock(t.call.key)}
  {
    assert t.plan[0] == RefuseScript(t.call.key, row, refusal)[|t.done|];
  }

  lemma FitsMiss(g: Db, t: Txn, pid: Id, sid: Id)
    requires TxnOk(g, t) && Fits(t, pid, sid) && BuyerOk(g, t, sid) && t.phase.Working? && t.plan != []
    requires AfterMiss(t).Some? && NoLoss(AfterMiss(t).value)
    ensures Fits(AfterMiss(t).value, pid, sid)
  {
    hide Serial, Covered, OpenScript, ClaimOf;
    NextOfOpening(t, t.phase.goal.w);
  }

  lemma TidyExecute(s: State, tid: nat, pid: Id, sid: Id, units: int)
    requires RushOk(s, pid, sid, units) && Tidy(s, pid, sid) && Enabled(s, Execute(tid)) &&
             DemoOk(After(s, Execute(tid)), pid, sid)
    ensures Tidy(After(s, Execute(tid)), pid, sid)
  {
    hide DemoOk, Recorded, Counted, Strangers, Inv, TxnOk, Level, SaleOpen, Free, Terms, Hits, Absorb, Publish, LocksOf,
         Fits;
    var t, after := s.txns[tid], After(s, Execute(tid));
    Unpack(s, pid, sid, tid);
    Unpack(after, pid, sid, tid);
    assert BuyerOk(s.db, t, sid);
    if Hits(View(s.db, t), t.plan[0]) {
      FitsExecute(s.db, t, pid, sid);
    } else {
      FitsMiss(s.db, t, pid, sid);
    }
    TidyOwn(s, tid, after.txns[tid], after, pid, sid);
  }

  /** A commit publishes only rows its transaction locked, so the ids of all others stay free. */
  lemma IdsStayFree(g: Db, t: Txn, u: Txn, pid: Id, sid: Id)
    requires Covered(t.own, t.locks) && t.locks !! u.locks && Fits(u, pid, sid) && IdsFree(g, u)
    ensures IdsFree(View(g, t), u)
  {
    if u.phase.Working? && u.phase.goal.Opens? {
      var w := u.phase.goal.w;
      assert ReservationLock(w.rid) in u.locks && OrderLock(w.oid) in u.locks;
      assert w.rid !in t.own.reservations && w.oid !in t.own.orders;
    }
  }

  lemma TermsStay(g: Db, t: Txn, d: Db, pid: Id, sid: Id, m: Mark)
    requires Terms(g, pid, sid) && BuyerCommits(g, t, d, sid, m)
    ensures Terms(d, pid, sid)
  {
  }

  lemma UnpackPair(s: State, pid: Id, sid: Id, i: nat, j: nat)
    requires DemoOk(s, pid, sid) && i in s.txns && j in s.txns && i != j
    ensures s.txns[i].locks !! s.txns[j].locks && Covered(s.txns[i].own, s.txns[i].locks)
  {
    hide Inv, Level, Serial, Covered, Control;
    assert Apart(s.txns[i], s.txns[j]) && TxnOk(s.db, s.txns[i]);
  }

  lemma TidyCommit(s: State, tid: nat, pid: Id, sid: Id, units: int)
    requires RushOk(s, pid, sid, units) && Tidy(s, pid, sid) && Enabled(s, Commit(tid))
    ensures Tidy(After(s, Commit(tid)), pid, sid)
  {
    hide DemoOk, Inv, TxnOk, Level, Recorded, Counted, Strangers, CommitsAs, Publish, BuyerCommits, Fits, IdsFree,
         Terms;
    var t, n := s.txns[tid], After(s, Commit(tid));
    Unpack(s, pid, sid, tid);
    CommitRefines(s.db, t);
    assert BuyerOk(s.db, t, sid);
    BuyerCommit(s.db, t, n.db, sid);
    TermsStay(s.db, t, n.db, pid, sid, Told(t.call, CommitAnswer(t.phase.goal)));
    forall i | i in n.txns ensures Fits(n.txns[i], pid, sid) && IdsFree(n.db, n.txns[i]) {
      UnpackPair(s, pid, sid, tid, i);
      IdsStayFree(s.db, t, s.txns[i], pid, sid);
    }
  }

  lemma TidyBegin(s: State, tid: nat, c: Call, pid: Id, sid: Id)
    requires Tidy(s, pid, sid) && Enabled(s, Begin(tid, c)) && Wants(c, sid)
    ensures Tidy(After(s, Begin(tid, c)), pid, sid)
  {
    TidyOwn(s, tid, NewTxn(c), After(s, Begin(tid, c)), pid, sid);
  }

  lemma TidyKeeps(s: State, e: Step, pid: Id, sid: Id, units: int)
    requires RushOk(s, pid, sid, units) && Tidy(s, pid, sid) && Enabled(s, e) && RushStep(s, e, sid)
    requires DemoOk(After(s, e), pid, sid)
    ensures Tidy(After(s, e), pid, sid)
  {
    hide DemoOk, SaleOpen, BuyerOk, Strangers, Recorded, Counted, Enabled, After, Tidy;
    match e
    case Begin(tid, c) => TidyBegin(s, tid, c, pid, sid);
    case ReadSale(tid, now) => TidyReadSale(s, tid, now, pid, sid, units);
    case Claim(tid, exp) =>
      ClaimIsNew(s, tid, exp, pid, sid, units);
      TidyClaim(s, tid, exp, pid, sid);
    case Advise(tid) => TidyAdvise(s, tid, pid, sid);
    case ReadSum(tid, rid, oid, until) => TidyReadSum(s, tid, rid, oid, until, pid, sid);
    case Execute(tid) => TidyExecute(s, tid, pid, sid, units);
    case Commit(tid) => TidyCommit(s, tid, pid, sid, units);
  }

  lemma ClaimIsNew(s: State, tid: nat, exp: int, pid: Id, sid: Id, units: int)
    requires RushOk(s, pid, sid, units) && Enabled(s, Claim(tid, exp))
    ensures tid in s.txns && s.txns[tid].call.ReserveCall? && s.txns[tid].call.key !in s.db.keys
  {
    hide DemoOk, Recorded, Counted, Strangers, Free, Hits, Publish;
    KeyIsNew(s, tid);
  }

  // ---------------------------------------------------------------- somebody can always go on

  /** Nobody else holds the sale row or the inventory row. */
  ghost predicate Leads(s: State, tid: nat, pid: Id, sid: Id) {
    tid in s.txns && forall u :: u in s.txns && u != tid ==> HoldsNeither(s.txns[u], pid, sid)
  }

  lemma SomebodyLeads(s: State, pid: Id, sid: Id) returns (tid: nat)
    requires DemoOk(s, pid, sid) && Tidy(s, pid, sid) && s.txns != map[]
    ensures Leads(s, tid, pid, sid)
  {
    hide DemoOk, IdsFree, Terms;
    tid :| tid in s.txns;
    if i :| i in s.txns && SaleLock(sid) in s.txns[i].locks {
      tid := i;
    }
    forall u | u in s.txns && u != tid ensures HoldsNeither(s.txns[u], pid, sid) {
      UnpackPair(s, pid, sid, tid, u);
      assert Fits(s.txns[u], pid, sid);
    }
  }

  lemma FreshId(taken: set<Id>) returns (x: Id)
    ensures x !in taken
  {
    var n := LongerThanAll(taken);
    x := Id(seq(n, _ => 'x'));
    assert |x.text| == n;
  }

  lemma {:induction false} LongerThanAll(taken: set<Id>) returns (n: nat)
    ensures forall x :: x in taken ==> |x.text| < n
  {
    if taken == {} {
      n := 0;
    } else {
      var x :| x in taken;
      var m := LongerThanAll(taken - {x});
      n := if |x.text| < m then m else |x.text| + 1;
      forall y | y in taken ensures |y.text| < n {
        assert y == x || y in taken - {x};
      }
    }
  }

  /** How many steps a buyer has before it. */
  function Work(t: Txn): nat {
    match t.phase
    case Begun => 12
    case Conflicted => 0
    case Claimed(_) => 11
    case Guarded(_) => 10
    case SaleSeen(_, _, _, _, _) => 9
    case PayClaimed(_) => 0
    case Working(_) => |t.plan| + 1
  }

  /** A step of this transaction that gets it closer to its commit. */
  ghost predicate Advances(s: State, e: Step, tid: nat, sid: Id) {
    && Enabled(s, e) && RushStep(s, e, sid) && !e.Begin?
    && var n := After(s, e);
       || (tid in s.txns && n.txns == s.txns - {tid})
       || (tid in s.txns && tid in n.txns && n.txns == s.txns[tid := n.txns[tid]] &&
           Work(n.txns[tid]) < Work(s.txns[tid]))
  }

  lemma CallIsValid(s: State, tid: nat, pid: Id, sid: Id)
    requires DemoOk(s, pid, sid) && tid in s.txns
    ensures ValidCall(s.txns[tid].call)
  {
    hide Inv, Level, Serial, Covered, Apart, ValidCall;
    assert TxnOk(s.db, s.txns[tid]);
  }

  lemma CanClaim(s: State, tid: nat, pid: Id, sid: Id, units: int)
    requires RushOk(s, pid, sid, units) && Tidy(s, pid, sid) && tid in s.txns && s.txns[tid].phase == Begun
    ensures Advances(s, Claim(tid, 0), tid, sid)
  {
    hide DemoOk, Recorded, Counted, SaleOpen, IdsFree, Terms, TxnOk, Inv, Level, Absorb, ClaimRow;
    var t := s.txns[tid];
    assert BuyerOk(s.db, t, sid) && Fits(t, pid, sid);
    Unpack(s, pid, sid, tid);
    CallIsValid(s, tid, pid, sid);
    KeyIsNew(s, tid);
    KeyIsUnseen(s.db, t);
    forall u | u in s.txns && u != tid ensures s.txns[u].locks !! {KeyLock(t.call.key)} {
      assert Stranger(s.txns[u].call, t.call) && Fits(s.txns[u], pid, sid);
    }
  }

  lemma KeyIsUnseen(g: Db, t: Txn)
    requires TxnOk(g, t) && t.call.ReserveCall? && t.locks == {} && t.call.key !in g.keys
    ensures t.call.key !in View(g, t).keys
  {
    hide Serial, Control;
  }

  lemma CanAdvise(s: State, tid: nat, pid: Id, sid: Id, units: int)
    requires RushOk(s, pid, sid, units) && Tidy(s, pid, sid) && tid in s.txns && s.txns[tid].phase.Claimed?
    ensures Advances(s, Advise(tid), tid, sid)
  {
    hide DemoOk, Recorded, Counted, SaleOpen, IdsFree, Terms;
    var t := s.txns[tid];
    assert BuyerOk(s.db, t, sid);
    forall u | u in s.txns && u != tid ensures s.txns[u].adv != Some((t.call.saleId, t.call.userId)) {
      assert Stranger(s.txns[u].call, t.call) && Fits(s.txns[u], pid, sid);
    }
  }

  lemma CanReadSale(s: State, tid: nat, pid: Id, sid: Id, units: int)
    requires RushOk(s, pid, sid, units) && Tidy(s, pid, sid) && tid in s.txns && s.txns[tid].phase.Guarded?
    ensures Advances(s, ReadSale(tid, s.db.sales[sid].startsAt), tid, sid)
  {
    hide DemoOk, Recorded, Counted, Strangers, IdsFree, Fits;
    assert BuyerOk(s.db, s.txns[tid], sid);
  }

  lemma CanReadSum(s: State, tid: nat, pid: Id, sid: Id, units: int) returns (e: Step)
    requires RushOk(s, pid, sid, units) && Tidy(s, pid, sid) && tid in s.txns && s.txns[tid].phase.SaleSeen?
    ensures Advances(s, e, tid, sid)
  {
    hide DemoOk, Recorded, Counted, Strangers, IdsFree, Fits, Terms, SaleOpen, Total;
    assert BuyerOk(s.db, s.txns[tid], sid);
    CallIsValid(s, tid, pid, sid);
    var rids := set u, l | u in s.txns && l in s.txns[u].locks && l.ReservationLock? :: l.r;
    var oids := set u, l | u in s.txns && l in s.txns[u].locks && l.OrderLock? :: l.o;
    var rid := FreshId(s.db.reservations.Keys + rids);
    var oid := FreshId(s.db.orders.Keys + oids);
    e := ReadSum(tid, rid, oid, 0);
    forall u | u in s.txns && u != tid ensures s.txns[u].locks !! {ReservationLock(rid), OrderLock(oid)} {
    }
  }

  // ---------------------------------------------------------------- statements of a leader

  /** After both decrements nothing can stop a reservation. */
  lemma InsertsHit(g: Db, t: Txn, pid: Id, sid: Id)
    requires TxnOk(g, t) && t.phase.Working? && t.phase.goal.Opens? && OpeningHolds(t, t.phase.goal.w, pid, sid) &&
             IdsFree(g, t)
    requires |t.done| >= 3 && t.plan != [] && t.call.ReserveCall? && t.call.key !in g.keys
    ensures Hits(View(g, t), t.plan[0])
  {
    hide Serial, Covered, RunAll, Publish, OpenScript, Hits, Decremented;
    var w := t.phase.goal.w;
    CommitIsSerial(g, t.locks, t.done, t.own);
    assert t.done == t.done[..3] + t.done[3..] && t.done[..3] == (t.done + t.plan)[..3] == OpenScript(w)[..3];
    RunAppend(g, t.done[..3], t.done[3..]);
    DecrementsRun(g, w);
    OpenRuns(g, w);
    PrefixRuns(g, t.done, t.plan);
  }

  lemma RefusalHits(g: Db, t: Txn)
    requires TxnOk(g, t) && t.phase.Working? && t.phase.goal.Refuses? && t.plan != [] && t.call.key !in g.keys
    ensures Hits(View(g, t), t.plan[0])
  {
    hide Serial, Covered, RunAll, Publish, Hits, RefuseScript;
    CommitIsSerial(g, t.locks, t.done, t.own);
    RefuseRuns(g, t.call.key, t.phase.goal.row, t.phase.goal.refusal);
    PrefixRuns(g, t.done, t.plan);
  }

  lemma OwnLocksAreFree(s: State, tid: nat, locks: set<Lock>, pid: Id, sid: Id)
    requires DemoOk(s, pid, sid) && tid in s.txns && locks <= s.txns[tid].locks
    ensures Free(s, tid, locks)
  {
    hide DemoOk;
    forall u | u in s.txns && u != tid ensures s.txns[u].locks !! locks {
      UnpackPair(s, pid, sid, tid, u);
    }
  }

  lemma CanExecuteOpening(s: State, tid: nat, pid: Id, sid: Id)
    requires DemoOk(s, pid, sid) && Strangers(s) && Recorded(s.db, s.trace) && Tidy(s, pid, sid) &&
             Leads(s, tid, pid, sid)
    requires s.txns[tid].phase.Working? && s.txns[tid].phase.goal.Opens? && s.txns[tid].plan != []
    ensures Enabled(s, Execute(tid))
  {
    hide DemoOk, Strangers, Recorded, Inv, Level, Terms, Hits, Publish, OpenScript, ClaimOf;
    var t := s.txns[tid];
    var w := t.phase.goal.w;
    assert Fits(t, pid, sid) && IdsFree(s.db, t);
    OpeningKnown(s, tid, pid, sid);
    NextOfOpening(t, w);
    if |t.done| >= 3 {
      KeyIsNew(s, tid);
      Unpack(s, pid, sid, tid);
      InsertsHit(s.db, t, pid, sid);
      OwnLocksAreFree(s, tid, LocksOf(t.plan[0]), pid, sid);
    }
  }

  lemma OpeningKnown(s: State, tid: nat, pid: Id, sid: Id)
    requires DemoOk(s, pid, sid) && tid in s.txns && s.txns[tid].phase.Working? && s.txns[tid].phase.goal.Opens?
    ensures var t := s.txns[tid];
            OpeningFits(t.call, t.phase.goal.w) && 1 <= |t.done| && t.done + t.plan == OpenScript(t.phase.goal.w)
  {
    hide Inv, Level, Serial, Covered, Apart, OpenScript;
    assert TxnOk(s.db, s.txns[tid]);
  }

  lemma RefusalKnown(s: State, tid: nat, pid: Id, sid: Id)
    requires DemoOk(s, pid, sid) && tid in s.txns && s.txns[tid].phase.Working? && s.txns[tid].phase.goal.Refuses?
    ensures var t := s.txns[tid];
            t.call.ReserveCall? && t.done + t.plan == RefuseScript(t.call.key, t.phase.goal.row, t.phase.goal.refusal)
  {
    hide Inv, Level, Serial, Covered, Apart, RefuseScript;
    assert TxnOk(s.db, s.txns[tid]);
  }

  lemma CanExecuteRefusal(s: State, tid: nat, pid: Id, sid: Id)
    requires DemoOk(s, pid, sid) && Strangers(s) && Recorded(s.db, s.trace) && Tidy(s, pid, sid) && tid in s.txns
    requires s.txns[tid].phase.Working? && s.txns[tid].phase.goal.Refuses? && s.txns[tid].plan != []
    ensures Enabled(s, Execute(tid))
  {
    hide DemoOk, Strangers, Recorded, Inv, Level, Terms, Hits, Publish, RefuseScript, TxnOk, AfterMiss;
    var t := s.txns[tid];
    assert Fits(t, pid, sid);
    RefusalKnown(s, tid, pid, sid);
    NextOfRefusal(t, t.phase.goal.row, t.phase.goal.refusal);
    KeyIsNew(s, tid);
    Unpack(s, pid, sid, tid);
    RefusalHits(s.db, t);
    OwnLocksAreFree(s, tid, LocksOf(t.plan[0]), pid, sid);
  }

  lemma ExecuteAdvances(s: State, tid: nat, pid: Id, sid: Id)
    requires DemoOk(s, pid, sid) && Enabled(s, Execute(tid)) && BuyerOk(s.db, s.txns[tid], sid)
    ensures Advances(s, Execute(tid), tid, sid)
  {
    hide DemoOk, Hits, Publish, Absorb, Free, ClaimOf, OpenScript;
    var t := s.txns[tid];
    if t.phase.goal.Opens? {
      OpeningKnown(s, tid, pid, sid);
      NextOfOpening(t, t.phase.goal.w);
      OpeningLength(t, t.phase.goal.w);
    }
  }

  lemma OpeningLength(t: Txn, w: Opening)
    requires w.quantity >= 1 && t.done + t.plan == OpenScript(w)
    ensures |t.done| + |t.plan| == 7
  {
    assert |t.done + t.plan| == 7;
  }

  lemma NotPaying(s: State, tid: nat, pid: Id, sid: Id)
    requires DemoOk(s, pid, sid) && tid in s.txns && Wants(s.txns[tid].call, sid)
    ensures !s.txns[tid].phase.PayClaimed?
  {
    hide Inv, Level, Serial, Covered, Apart;
    assert TxnOk(s.db, s.txns[tid]);
  }

  lemma CommitAdvances(s: State, tid: nat, sid: Id)
    requires Enabled(s, Commit(tid))
    ensures Advances(s, Commit(tid), tid, sid)
  {
  }

  /** The leader always has a step, and it brings the leader closer to its commit. */
  lemma LeaderGoesOn(s: State, tid: nat, pid: Id, sid: Id, units: int) returns (e: Step)
    requires RushOk(s, pid, sid, units) && Tidy(s, pid, sid) && Leads(s, tid, pid, sid)
    ensures Advances(s, e, tid, sid)
  {
    hide DemoOk, Strangers, Recorded, Counted, Tidy, Advances, HoldsNeither;
    var t := s.txns[tid];
    assert BuyerOk(s.db, t, sid);
    NotPaying(s, tid, pid, sid);
    if t.phase == Begun {
      CanClaim(s, tid, pid, sid, units);
      e := Claim(tid, 0);
    } else if t.phase.Claimed? {
      CanAdvise(s, tid, pid, sid, units);
      e := Advise(tid);
    } else if t.phase.Guarded? {
      CanReadSale(s, tid, pid, sid, units);
      e := ReadSale(tid, s.db.sales[sid].startsAt);
    } else if t.phase.SaleSeen? {
      e := CanReadSum(s, tid, pid, sid, units);
    } else if t.plan == [] {
      CommitAdvances(s, tid, sid);
      e := Commit(tid);
    } else {
      if t.phase.goal.Opens? {
        CanExecuteOpening(s, tid, pid, sid);
      } else {
        CanExecuteRefusal(s, tid, pid, sid);
      }
      ExecuteAdvances(s, tid, pid, sid);
      e := Execute(tid);
    }
  }

  // ---------------------------------------------------------------- every rush can finish

  /** n more steps, none of which is an abort or a new buyer, answer everybody. */
  ghost predicate FinishesIn(s: State, n: nat, sid: Id)
    decreases n
  {
    if n == 0 then s.txns == map[]
    else exists e :: Enabled(s, e) && RushStep(s, e, sid) && !e.Begin? && FinishesIn(After(s, e), n - 1, sid)
  }

  /** A rush under way. */
  ghost predicate Underway(s: State, pid: Id, sid: Id, units: int) {
    RushOk(s, pid, sid, units) && Tidy(s, pid, sid)
  }

  lemma UnderwayKeeps(s: State, e: Step, pid: Id, sid: Id, units: int)
    requires Underway(s, pid, sid, units) && Enabled(s, e) && RushStep(s, e, sid)
    ensures Underway(After(s, e), pid, sid, units)
  {
    hide Enabled, After, Tidy, SaleOpen, BuyerOk, Strangers, Recorded, Counted, Inv, Level, TxnOk, Apart;
    assert DemoStep(e);
    DemoKeeps(s, e, pid, sid);
    RushKeeps(s, e, pid, sid, units);
    TidyKeeps(s, e, pid, sid, units);
  }

  lemma DemoKeeps(s: State, e: Step, pid: Id, sid: Id)
    requires DemoOk(s, pid, sid) && Enabled(s, e) && DemoStep(e)
    ensures DemoOk(After(s, e), pid, sid)
  {
    hide Enabled, After, Inv, Level, TxnOk, Apart;
    StepKeepsGood(s, e);
    LevelStep(s, e, pid, sid);
    NoLossStep(s, e, pid, sid);
  }

  lemma LeaderStays(s: State, e: Step, tid: nat, pid: Id, sid: Id)
    requires Leads(s, tid, pid, sid) && Advances(s, e, tid, sid) && tid in After(s, e).txns
    ensures Leads(After(s, e), tid, pid, sid) && |After(s, e).txns| == |s.txns|
    ensures Work(After(s, e).txns[tid]) < Work(s.txns[tid])
  {
    hide Enabled, After, RushStep, HoldsNeither, Work;
    assert After(s, e).txns.Keys == s.txns.Keys;
  }

  lemma LeaderLeaves(s: State, e: Step, tid: nat, sid: Id)
    requires Advances(s, e, tid, sid) && tid !in After(s, e).txns
    ensures |After(s, e).txns| < |s.txns|
  {
    hide Enabled, After, RushStep, Work;
    assert After(s, e).txns.Keys == s.txns.Keys - {tid};
  }

  lemma {:induction false} LeaderFinishes(s: State, tid: nat, pid: Id, sid: Id, units: int) returns (n: nat)
    requires Underway(s, pid, sid, units) && Leads(s, tid, pid, sid)
    ensures FinishesIn(s, n, sid)
    decreases |s.txns|, 1, Work(s.txns[tid])
  {
    hide RushOk, Tidy, HoldsNeither, Enabled, After, RushStep, Work, FinishesIn;
    var e := LeaderGoesOn(s, tid, pid, sid, units);
    var next := After(s, e);
    UnderwayKeeps(s, e, pid, sid, units);
    var m;
    if tid in next.txns {
      LeaderStays(s, e, tid, pid, sid);
      m := LeaderFinishes(next, tid, pid, sid, units);
    } else {
      LeaderLeaves(s, e, tid, sid);
      m := RushFinishes(next, pid, sid, units);
    }
    FinishesNext(s, e, m, sid);
    n := m + 1;
  }

  lemma FinishesNext(s: State, e: Step, m: nat, sid: Id)
    requires Enabled(s, e) && RushStep(s, e, sid) && !e.Begin? && FinishesIn(After(s, e), m, sid)
    ensures FinishesIn(s, m + 1, sid)
  {
    hide Enabled, After, RushStep;
  }

  lemma {:induction false} RushFinishes(s: State, pid: Id, sid: Id, units: int) returns (n: nat)
    requires Underway(s, pid, sid, units)
    ensures FinishesIn(s, n, sid)
    decreases |s.txns|, 2, 0
  {
    hide Tidy, SaleOpen, BuyerOk, Strangers, Recorded, Counted, DemoOk;
    if s.txns == map[] {
      n := 0;
    } else {
      var tid := SomebodyLeads(s, pid, sid);
      n := LeaderFinishes(s, tid, pid, sid, units);
    }
  }

  ghost predicate Rushes(run: seq<State>, steps: seq<Step>, pid: Id, sid: Id, units: int, now: int) {
    && IsRun(run, steps) && Starts(run[0], DemoTables(pid, sid, units, now)) && 1 <= units <= INT4_MAX
    && forall i :: 0 <= i < |steps| ==> RushStep(run[i], steps[i], sid)
  }

  lemma {:induction false} RushIsUnderway(run: seq<State>, steps: seq<Step>, pid: Id, sid: Id, units: int, now: int)
    requires Rushes(run, steps, pid, sid, units, now)
    ensures Underway(run[|steps|], pid, sid, units)
    decreases |steps|
  {
    hide Enabled, After, RushStep, Underway, DemoTables;
    if steps == [] {
      StartIsUnderway(run, steps, pid, sid, units, now);
    } else {
      var n := |steps| - 1;
      assert IsRun(run[..n + 1], steps[..n]);
      RushIsUnderway(run[..n + 1], steps[..n], pid, sid, units, now);
      UnderwayKeeps(run[n], steps[n], pid, sid, units);
    }
  }

  lemma StartIsUnderway(run: seq<State>, steps: seq<Step>, pid: Id, sid: Id, units: int, now: int)
    requires Rushes(run, steps, pid, sid, units, now) && steps == []
    ensures Underway(run[0], pid, sid, units)
  {
    hide Enabled, After, RushStep, RushOk, IsRun;
    RushRuns(run, steps, pid, sid, units, now);
  }

  /** An extension of a rush by steps of the buyers already there. */
  ghost predicate Completes(run: seq<State>, steps: seq<Step>, full: seq<State>, all: seq<Step>) {
    && |run| <= |full| && full[..|run|] == run && |steps| <= |all| && all[..|steps|] == steps
    && Begins(all) == Begins(steps)
    && |full| == |all| + 1 && full[|all|].txns == map[]
  }

  lemma {:induction false} FinishRun(run: seq<State>, steps: seq<Step>, n: nat, pid: Id, sid: Id, units: int, now: int)
    returns (full: seq<State>, all: seq<Step>)
    requires Rushes(run, steps, pid, sid, units, now) && FinishesIn(run[|steps|], n, sid)
    ensures Rushes(full, all, pid, sid, units, now) && Completes(run, steps, full, all)
    decreases n
  {
    hide Enabled, After, RushStep, DemoTables, Begins;
    if n == 0 {
      full, all := run, steps;
      assert full[..|run|] == run && all[..|steps|] == steps;
    } else {
      var s := run[|steps|];
      var e :| Enabled(s, e) && RushStep(s, e, sid) && !e.Begin? && FinishesIn(After(s, e), n - 1, sid);
      RushNext(run, steps, e, pid, sid, units, now);
      full, all := FinishRun(run + [After(s, e)], steps + [e], n - 1, pid, sid, units, now);
      CompletesBefore(run, steps, After(s, e), e, full, all);
    }
  }

  lemma RushNext(run: seq<State>, steps: seq<Step>, e: Step, pid: Id, sid: Id, units: int, now: int)
    requires Rushes(run, steps, pid, sid, units, now) && Enabled(run[|steps|], e) && RushStep(run[|steps|], e, sid)
    ensures Rushes(run + [After(run[|steps|], e)], steps + [e], pid, sid, units, now)
  {
    hide Enabled, After, RushStep, DemoTables;
  }

  lemma CompletesBefore(run: seq<State>, steps: seq<Step>, s: State, e: Step, full: seq<State>, all: seq<Step>)
    requires Completes(run + [s], steps + [e], full, all) && !e.Begin?
    ensures Completes(run, steps, full, all)
  {
    assert full[..|run|] == full[..|run| + 1][..|run|] == run;
    assert all[..|steps|] == all[..|steps| + 1][..|steps|] == steps;
    assert (steps + [e])[..|steps|] == steps;
  }

  /** No deadlock among buyers: from wherever a rush has got to, steps of the buyers under way alone, with
      no abort, answer all of them, and then exactly min(N, S) hold a reservation. */
  lemma EveryRushCanFinish(run: seq<State>, steps: seq<Step>, pid: Id, sid: Id, units: int, now: int)
    returns (full: seq<State>, all: seq<Step>)
    requires Rushes(run, steps, pid, sid, units, now)
    ensures Rushes(full, all, pid, sid, units, now) && Completes(run, steps, full, all)
    ensures var n := Begins(steps);
            Creations(full[|all|].trace) == if n <= units then n else units
  {
    hide Underway, FinishesIn, Enabled, After, RushStep, DemoTables, Begins, Creations, SoldOuts;
    RushIsUnderway(run, steps, pid, sid, units, now);
    var n := RushFinishes(run[|steps|], pid, sid, units);
    full, all := FinishRun(run, steps, n, pid, sid, units, now);
    ExactlyTheStockIsSold(full, all, pid, sid, units, now);
  }
}
