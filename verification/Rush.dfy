/** The headline: N buyers, S units, any interleaving, exactly min(N, S) reservations. */
module Rush {
  import opened Domain
  import opened Tables
  import opened Ledger
  import opened Statements
  import opened Scripts
  import opened Locking
  import opened Machine
  import opened MachineProofs
  import opened ExactlyOnce
  import opened Demo

  predicate Wants(c: Call, sid: Id) {
    c.ReserveCall? && c.saleId == sid && c.quantity == 1
  }

  /** The two callers use different keys and are different users. */
  predicate Stranger(c: Call, d: Call) {
    c.ReserveCall? && d.ReserveCall? && c.key != d.key && c.userId != d.userId
  }

  predicate SoldOut(m: Mark) {
    m.Told? && m.answer == Refused(AllocationSoldOut)
  }

  /** Only Reserve transactions of pairwise different buyers, each for one unit, inside the sale period,
      and no transaction is aborted. */
  ghost predicate RushStep(s: State, e: Step, sid: Id) {
    match e
    case Begin(_, c) =>
      Wants(c, sid) && (forall i :: i in s.txns ==> Stranger(c, s.txns[i].call)) &&
      (forall m :: m in s.trace ==> m.Told? && Stranger(c, m.call))
    case ReadSale(_, now) => sid in s.db.sales ==> s.db.sales[sid].startsAt <= now < s.db.sales[sid].endsAt
    case Claim(_, _) => true
    case Advise(_) => true
    case ReadSum(_, _, _, _) => true
    case Execute(_) => true
    case Commit(_) => true
    case _ => false
  }

  function SoldOuts(trace: seq<Mark>): nat {
    if trace == [] then 0
    else SoldOuts(trace[..|trace| - 1]) + (if SoldOut(trace[|trace| - 1]) then 1 else 0)
  }

  // ---------------------------------------------------------------- the invariant of a rush

  predicate BuyerOk(db: Db, t: Txn, sid: Id) {
    && Wants(t.call, sid) && !t.phase.Conflicted?
    && (t.phase.Working? ==>
          match t.phase.goal
          case Opens(_, _) => true
          case Refuses(_, refusal) => refusal == AllocationSoldOut && sid in db.sales && db.sales[sid].remaining == 0
          case _ => false)
  }

  /** The sale is open to everybody, with one unit each. */
  predicate SaleOpen(db: Db, pid: Id, sid: Id) {
    && pid in db.products && db.products[pid].active
    && sid in db.sales && db.sales[sid].state == Active && db.sales[sid].maxPerUser == 1
  }

  ghost predicate Strangers(s: State) {
    && (forall i, j :: i in s.txns && j in s.txns && i != j ==> Stranger(s.txns[i].call, s.txns[j].call))
    && (forall i, m :: i in s.txns && m in s.trace ==> m.Told? && Stranger(s.txns[i].call, m.call))
  }

  /** Keys and users in the tables belong to buyers already answered. */
  ghost predicate Recorded(db: Db, trace: seq<Mark>) {
    && (forall k :: k in db.keys ==> exists m :: m in trace && m.Told? && m.call.ReserveCall? && m.call.key == k)
    && (forall r :: r in db.reservations ==>
          exists m :: m in trace && m.Told? && m.call.ReserveCall? && m.call.userId == db.reservations[r].userId)
  }

  ghost predicate Counted(db: Db, trace: seq<Mark>, sid: Id, units: int) {
    && sid in db.sales
    && db.sales[sid].remaining + Creations(trace) == units
    && Creations(trace) + SoldOuts(trace) == |trace|
    && (SoldOuts(trace) > 0 ==> db.sales[sid].remaining == 0)
  }

  ghost predicate RushOk(s: State, pid: Id, sid: Id, units: int) {
    && DemoOk(s, pid, sid) && SaleOpen(s.db, pid, sid)
    && (forall i :: i in s.txns ==> BuyerOk(s.db, s.txns[i], sid))
    && Strangers(s) && Recorded(s.db, s.trace) && Counted(s.db, s.trace, sid, units)
  }

  // ---------------------------------------------------------------- steps of one buyer

  /** Steps before the commit change one transaction and nothing else. */
  lemma BuyerStep(s: State, tid: nat, t: Txn, pid: Id, sid: Id, units: int, n: State)
    requires RushOk(s, pid, sid, units) && tid in s.txns && t.call == s.txns[tid].call
    requires n == s.(txns := s.txns[tid := t]) && BuyerOk(s.db, t, sid)
    requires DemoOk(n, pid, sid)
    ensures RushOk(n, pid, sid, units)
  {
    hide DemoOk, Recorded, Counted, SaleOpen, BuyerOk, Stranger;
    assert forall i :: i in n.txns ==> n.txns[i].call == s.txns[i].call;
  }

  lemma Unpack(s: State, pid: Id, sid: Id, tid: nat)
    requires DemoOk(s, pid, sid)
    ensures Inv(s.db) && Level(s.db, pid, sid)
    ensures tid in s.txns ==> TxnOk(s.db, s.txns[tid]) && NoLoss(s.txns[tid])
  {
    hide Inv, Level, TxnOk, Apart;
  }

  lemma RushBegin(s: State, tid: nat, c: Call, pid: Id, sid: Id, units: int)
    requires RushOk(s, pid, sid, units) && Enabled(s, Begin(tid, c)) && RushStep(s, Begin(tid, c), sid)
    requires DemoOk(After(s, Begin(tid, c)), pid, sid)
    ensures RushOk(After(s, Begin(tid, c)), pid, sid, units)
  {
    hide DemoOk, Recorded, Counted, SaleOpen;
  }

  lemma KeyIsNew(s: State, tid: nat)
    requires Strangers(s) && Recorded(s.db, s.trace) && tid in s.txns && s.txns[tid].call.ReserveCall?
    ensures s.txns[tid].call.key !in s.db.keys
  {
    forall m | m in s.trace && m.Told? && m.call.ReserveCall? ensures m.call.key != s.txns[tid].call.key {
      assert Stranger(s.txns[tid].call, m.call);
    }
  }

  lemma UserHasNothing(s: State, tid: nat, sid: Id)
    requires Strangers(s) && Recorded(s.db, s.trace) && tid in s.txns && s.txns[tid].call.ReserveCall?
    ensures Total(ActiveBy(sid, s.txns[tid].call.userId), s.db.reservations) == 0
  {
    forall r | r in s.db.reservations ensures s.db.reservations[r].userId != s.txns[tid].call.userId {
      var m :| m in s.trace && m.Told? && m.call.ReserveCall? && m.call.userId == s.db.reservations[r].userId;
      assert Stranger(s.txns[tid].call, m.call);
    }
    TotalNone(ActiveBy(sid, s.txns[tid].call.userId), s.db.reservations);
  }

  lemma RushClaim(s: State, tid: nat, exp: int, pid: Id, sid: Id, units: int)
    requires RushOk(s, pid, sid, units) && Enabled(s, Claim(tid, exp)) && DemoOk(After(s, Claim(tid, exp)), pid, sid)
    ensures RushOk(After(s, Claim(tid, exp)), pid, sid, units)
  {
    hide DemoOk, Recorded, Counted, SaleOpen, Strangers, Hits, Absorb, Publish, LocksOf;
    KeyIsNew(s, tid);
    BuyerStep(s, tid, After(s, Claim(tid, exp)).txns[tid], pid, sid, units, After(s, Claim(tid, exp)));
  }

  lemma RushAdvise(s: State, tid: nat, pid: Id, sid: Id, units: int)
    requires RushOk(s, pid, sid, units) && Enabled(s, Advise(tid)) && DemoOk(After(s, Advise(tid)), pid, sid)
    ensures RushOk(After(s, Advise(tid)), pid, sid, units)
  {
    hide DemoOk, Recorded, Counted, SaleOpen, Strangers;
    BuyerStep(s, tid, After(s, Advise(tid)).txns[tid], pid, sid, units, After(s, Advise(tid)));
  }

  lemma RushReadSale(s: State, tid: nat, now: int, pid: Id, sid: Id, units: int)
    requires RushOk(s, pid, sid, units) && Enabled(s, ReadSale(tid, now)) && RushStep(s, ReadSale(tid, now), sid)
    requires DemoOk(After(s, ReadSale(tid, now)), pid, sid)
    ensures RushOk(After(s, ReadSale(tid, now)), pid, sid, units)
  {
    hide DemoOk, Recorded, Counted, Strangers, TxnOk, Inv;
    Unpack(s, pid, sid, tid);
    assert SaleRefusal(s.db, sid, now) == None;
    BuyerStep(s, tid, After(s, ReadSale(tid, now)).txns[tid], pid, sid, units, After(s, ReadSale(tid, now)));
  }

  lemma RushReadSum(s: State, tid: nat, rid: Id, oid: Id, until: int, pid: Id, sid: Id, units: int)
    requires RushOk(s, pid, sid, units) && Enabled(s, ReadSum(tid, rid, oid, until))
    requires DemoOk(After(s, ReadSum(tid, rid, oid, until)), pid, sid)
    ensures RushOk(After(s, ReadSum(tid, rid, oid, until)), pid, sid, units)
  {
    hide DemoOk, Recorded, Counted, Strangers, OpenScript, TxnOk, Inv, Level, Free;
    Unpack(s, pid, sid, tid);
    LimitWasRead(s.db, s.txns[tid], sid);
    UserHasNothing(s, tid, sid);
    BuyerStep(s, tid, After(s, ReadSum(tid, rid, oid, until)).txns[tid], pid, sid, units,
              After(s, ReadSum(tid, rid, oid, until)));
  }

  lemma LimitWasRead(g: Db, t: Txn, sid: Id)
    requires TxnOk(g, t) && Wants(t.call, sid) && t.phase.SaleSeen?
    ensures sid in g.sales && t.phase.maxPerUser == g.sales[sid].maxPerUser
  {
    hide Serial, Covered;
  }

  /** A sale update that misses found the committed row at zero. */
  lemma SaleMissMeansEmpty(g: Db, t: Txn, sid: Id)
    requires TxnOk(g, t) && t.phase.Working? && t.phase.goal.Opens? && t.plan != [] && t.plan[0].OnSale?
    requires Wants(t.call, sid) && !Hits(View(g, t), t.plan[0])
    requires sid in g.sales && g.sales[sid].state == Active && g.sales[sid].remaining >= 0
    ensures g.sales[sid].remaining == 0
  {
    hide Serial, Covered, RunAll, Publish, Then;
    var w := t.phase.goal.w;
    var ss := OpenScript(w);
    assert t.plan[0] == ss[|t.done|];
    assert |t.done| == 1;
    assert t.done == ss[..1] == [ss[0]];
    CommitIsSerial(g, t.locks, t.done, t.own);
    RunNothing(g);
    RunNext(g, [], ss[0]);
    assert [] + [ss[0]] == [ss[0]];
    ThenInsertKey(g, w.key, ClaimOf(w));
    assert View(g, t).sales == g.sales;
  }

  lemma RemainingNonNegative(g: Db, sid: Id)
    requires Inv(g) && sid in g.sales
    ensures g.sales[sid].remaining >= 0
  {
    hide RefsOk, LedgerOk, LimitOk, OrdersOk, KeysOk, PaymentsOk, JournalOk;
    assert SaleOk(sid, g.sales[sid], g.reservations, g.journal);
  }

  lemma RushExecute(s: State, tid: nat, pid: Id, sid: Id, units: int)
    requires RushOk(s, pid, sid, units) && Enabled(s, Execute(tid)) && DemoOk(After(s, Execute(tid)), pid, sid)
    ensures RushOk(After(s, Execute(tid)), pid, sid, units)
  {
    hide DemoOk, Inv, TxnOk, Level, Recorded, Counted, Strangers, Hits, Absorb, Publish, LocksOf, Free;
    var t := s.txns[tid];
    var n := After(s, Execute(tid)).txns[tid];
    Unpack(s, pid, sid, tid);
    Unpack(After(s, Execute(tid)), pid, sid, tid);
    assert BuyerOk(s.db, t, sid);
    if !Hits(View(s.db, t), t.plan[0]) && t.phase.goal.Opens? && t.plan[0].OnSale? {
      RemainingNonNegative(s.db, sid);
      SaleMissMeansEmpty(s.db, t, sid);
    }
    BuyerStep(s, tid, n, pid, sid, units, After(s, Execute(tid)));
  }

  // ---------------------------------------------------------------- commits

  lemma SoldOutsNext(trace: seq<Mark>, m: Mark)
    ensures SoldOuts(trace + [m]) == SoldOuts(trace) + (if SoldOut(m) then 1 else 0)
  {
    assert (trace + [m])[..|trace|] == trace;
  }

  lemma CountedNext(g: Db, d: Db, trace: seq<Mark>, m: Mark, sid: Id, units: int)
    requires Counted(g, trace, sid, units) && sid in d.sales && d.sales[sid].remaining >= 0
    requires d.sales[sid].remaining == g.sales[sid].remaining - (if MadeBy(m) == {} then 0 else 1)
    requires MadeBy(m) == {} <==> SoldOut(m)
    requires SoldOut(m) ==> g.sales[sid].remaining == 0
    ensures Counted(d, trace + [m], sid, units)
  {
    MadeNext(trace, m);
    SoldOutsNext(trace, m);
  }

  lemma RecordedNext(g: Db, d: Db, trace: seq<Mark>, m: Mark)
    requires Recorded(g, trace) && m.Told? && m.call.ReserveCall?
    requires forall k :: k in d.keys ==> k in g.keys || k == m.call.key
    requires forall r :: r in d.reservations ==>
               (r in g.reservations && g.reservations[r].userId == d.reservations[r].userId) ||
                 d.reservations[r].userId == m.call.userId
    ensures Recorded(d, trace + [m])
  {
    var after := trace + [m];
    forall k | k in d.keys ensures exists x :: x in after && x.Told? && x.call.ReserveCall? && x.call.key == k {
      if k in g.keys {
        var x :| x in trace && x.Told? && x.call.ReserveCall? && x.call.key == k;
        assert x in after;
      } else {
        assert m in after;
      }
    }
    forall r | r in d.reservations
      ensures exists x :: x in after && x.Told? && x.call.ReserveCall? && x.call.userId == d.reservations[r].userId
    {
      if d.reservations[r].userId == m.call.userId {
        assert m in after;
      } else {
        var x :| x in trace && x.Told? && x.call.ReserveCall? && x.call.userId == g.reservations[r].userId;
        assert x in after;
      }
    }
  }

  /** What a buyer's commit does to the tables. */
  ghost predicate BuyerCommits(g: Db, t: Txn, d: Db, sid: Id, m: Mark) {
    && m.Told? && m.call == t.call && m.call.ReserveCall?
    && d.products == g.products && sid in g.sales && sid in d.sales
    && d.sales[sid] == g.sales[sid].(remaining := d.sales[sid].remaining)
    && d.sales[sid].remaining == g.sales[sid].remaining - (if MadeBy(m) == {} then 0 else 1)
    && (MadeBy(m) == {} <==> SoldOut(m)) && (SoldOut(m) ==> g.sales[sid].remaining == 0)
    && (forall k :: k in d.keys ==> k in g.keys || k == m.call.key)
    && (forall r :: r in d.reservations ==>
          (r in g.reservations && g.reservations[r].userId == d.reservations[r].userId) ||
            d.reservations[r].userId == m.call.userId)
  }

  lemma OpeningCommit(g: Db, t: Txn, w: Opening, sid: Id)
    requires CanOpen(g, w) && Wants(t.call, sid) && OpeningFits(t.call, w) && sid in g.sales
    ensures BuyerCommits(g, t, Open(g, w), sid, Told(t.call, Created(ReceiptOf(w))))
  {
  }

  lemma BuyerCommit(g: Db, t: Txn, d: Db, sid: Id)
    requires t.phase.Working? && CommitsAs(g, t, d) && BuyerOk(g, t, sid) && sid in g.sales
    ensures BuyerCommits(g, t, d, sid, Told(t.call, CommitAnswer(t.phase.goal)))
  {
    if t.phase.goal.Opens? {
      hide Open, BuyerCommits;
      OpeningCommit(g, t, t.phase.goal.w, sid);
    }
  }

  lemma RushCommit(s: State, tid: nat, pid: Id, sid: Id, units: int)
    requires RushOk(s, pid, sid, units) && Enabled(s, Commit(tid)) && DemoOk(After(s, Commit(tid)), pid, sid)
    ensures RushOk(After(s, Commit(tid)), pid, sid, units)
  {
    hide DemoOk, Inv, TxnOk, Level, Recorded, Counted, Strangers, CommitsAs, Publish, BuyerCommits;
    var t := s.txns[tid];
    var n := After(s, Commit(tid));
    Unpack(s, pid, sid, tid);
    Unpack(n, pid, sid, tid);
    CommitRefines(s.db, t);
    assert BuyerOk(s.db, t, sid);
    BuyerCommit(s.db, t, n.db, sid);
    RushCommitted(s, tid, t, n, Told(t.call, CommitAnswer(t.phase.goal)), pid, sid, units);
  }

  lemma RushCommitted(s: State, tid: nat, t: Txn, n: State, m: Mark, pid: Id, sid: Id, units: int)
    requires tid in s.txns && t == s.txns[tid] && n.txns == s.txns - {tid} && n.trace == s.trace + [m]
    requires SaleOpen(s.db, pid, sid) && Strangers(s) && BuyerCommits(s.db, t, n.db, sid, m) && Inv(n.db)
    requires Recorded(s.db, s.trace) && Counted(s.db, s.trace, sid, units)
    requires forall i :: i in s.txns ==> BuyerOk(s.db, s.txns[i], sid)
    ensures SaleOpen(n.db, pid, sid) && Strangers(n) && forall i :: i in n.txns ==> BuyerOk(n.db, n.txns[i], sid)
    ensures Recorded(n.db, n.trace) && Counted(n.db, n.trace, sid, units)
  {
    hide Stranger, Inv, Recorded, Counted;
    RemainingNonNegative(n.db, sid);
    CountedNext(s.db, n.db, s.trace, m, sid, units);
    RecordedNext(s.db, n.db, s.trace, m);
    forall i, x | i in n.txns && x in n.trace ensures x.Told? && Stranger(n.txns[i].call, x.call) {
      assert x in s.trace || x == m;
    }
  }

  lemma RushKeeps(s: State, e: Step, pid: Id, sid: Id, units: int)
    requires RushOk(s, pid, sid, units) && Enabled(s, e) && RushStep(s, e, sid) && DemoOk(After(s, e), pid, sid)
    ensures RushOk(After(s, e), pid, sid, units)
  {
    hide RushOk, DemoOk, Enabled, After;
    match e
    case Begin(tid, c) => RushBegin(s, tid, c, pid, sid, units);
    case ReadSale(tid, now) => RushReadSale(s, tid, now, pid, sid, units);
    case Claim(tid, exp) => RushClaim(s, tid, exp, pid, sid, units);
    case Advise(tid) => RushAdvise(s, tid, pid, sid, units);
    case ReadSum(tid, rid, oid, until) => RushReadSum(s, tid, rid, oid, until, pid, sid, units);
    case Execute(tid) => RushExecute(s, tid, pid, sid, units);
    case Commit(tid) => RushCommit(s, tid, pid, sid, units);
  }

  // ---------------------------------------------------------------- whole runs

  function Begins(steps: seq<Step>): nat {
    if steps == [] then 0 else Begins(steps[..|steps| - 1]) + (if steps[|steps| - 1].Begin? then 1 else 0)
  }

  /** Every buyer who began is under way or has been answered. */
  lemma Headcount(s: State, e: Step, pid: Id, sid: Id, units: int)
    requires RushOk(s, pid, sid, units) && Enabled(s, e) && RushStep(s, e, sid)
    ensures |After(s, e).txns| + |After(s, e).trace| == |s.txns| + |s.trace| + (if e.Begin? then 1 else 0)
  {
    hide DemoOk, Recorded, Counted, SaleOpen, Strangers, Stranger, Hits, Absorb, Publish, LocksOf, AfterSale, AfterSum, Total;
    if e.Begin? {
      assert After(s, e).txns.Keys == s.txns.Keys + {e.tid};
    } else {
      assert BuyerOk(s.db, s.txns[e.tid], sid);
      if e.Commit? {
        assert After(s, e).txns.Keys == s.txns.Keys - {e.tid};
      } else {
        assert After(s, e).txns.Keys == s.txns.Keys;
      }
    }
  }

  lemma {:induction false} RushRuns(run: seq<State>, steps: seq<Step>, pid: Id, sid: Id, units: int, now: int)
    requires IsRun(run, steps) && Starts(run[0], DemoTables(pid, sid, units, now)) && 1 <= units <= INT4_MAX
    requires forall i :: 0 <= i < |steps| ==> RushStep(run[i], steps[i], sid)
    ensures forall i :: 0 <= i < |run| ==> DemoOk(run[i], pid, sid)
    ensures RushOk(run[|steps|], pid, sid, units)
    ensures |run[|steps|].txns| + |run[|steps|].trace| == Begins(steps)
    decreases |steps|
  {
    hide Inv, Good, Enabled, After, Level, DemoOk, RushOk;
    assert forall i :: 0 <= i < |steps| ==> DemoStep(steps[i]);
    DemoRunsStayLevel(run, steps, pid, sid, units, now);
    if steps == [] {
      RushStarts(run[0], pid, sid, units, now);
    } else {
      var n := |steps| - 1;
      assert IsRun(run[..n + 1], steps[..n]);
      RushRuns(run[..n + 1], steps[..n], pid, sid, units, now);
      Headcount(run[n], steps[n], pid, sid, units);
      assert run[n + 1] == After(run[n], steps[n]) && DemoOk(run[n + 1], pid, sid);
      RushKeeps(run[n], steps[n], pid, sid, units);
    }
  }

  lemma RushStarts(s: State, pid: Id, sid: Id, units: int, now: int)
    requires Starts(s, DemoTables(pid, sid, units, now)) && DemoOk(s, pid, sid)
    ensures RushOk(s, pid, sid, units) && |s.txns| + |s.trace| == 0
  {
    hide DemoOk;
  }

  /** After ResetDemo(S), N buyers with distinct users and keys reserve one unit each, interleaved in any
      way: once all are answered, exactly min(N, S) hold a reservation and the rest were told that the
      allocation is sold out. */
  lemma ExactlyTheStockIsSold(run: seq<State>, steps: seq<Step>, pid: Id, sid: Id, units: int, now: int)
    requires IsRun(run, steps) && Starts(run[0], DemoTables(pid, sid, units, now)) && 1 <= units <= INT4_MAX
    requires forall i :: 0 <= i < |steps| ==> RushStep(run[i], steps[i], sid)
    requires run[|steps|].txns == map[]
    ensures var n := Begins(steps);
            var trace := run[|steps|].trace;
            && Creations(trace) == (if n <= units then n else units)
            && SoldOuts(trace) == n - Creations(trace)
  {
    hide RushStep, RushOk, DemoOk, Begins, Creations, SoldOuts, Enabled, After, DemoTables;
    RushRuns(run, steps, pid, sid, units, now);
    RushEnds(run[|steps|], pid, sid, units);
  }

  lemma RushEnds(s: State, pid: Id, sid: Id, units: int)
    requires RushOk(s, pid, sid, units)
    ensures Creations(s.trace) == (if |s.trace| <= units then |s.trace| else units)
    ensures SoldOuts(s.trace) == |s.trace| - Creations(s.trace)
  {
    hide DemoOk, Strangers, Recorded, BuyerOk, Creations, SoldOuts;
    RemainingAtEnd(s, pid, sid);
  }

  lemma RemainingAtEnd(s: State, pid: Id, sid: Id)
    requires DemoOk(s, pid, sid)
    ensures sid in s.db.sales && s.db.sales[sid].remaining >= 0
  {
    hide Inv, DemoOk;
    Unpack(s, pid, sid, 0);
    assert sid in s.db.sales.Keys;
    RemainingNonNegative(s.db, sid);
  }
}
