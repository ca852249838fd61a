/** Payment callbacks over whole runs: what the callers of one payment key were told. */
module PaymentsOnce {
  import opened Domain
  import opened Tables
  import opened Fingerprint
  import opened Ledger
  import opened Scripts
  import opened Locking
  import opened Machine
  import opened MachineProofs

  /** The answers given under a payment key; payments are never purged. */
  function PayStory(slips: seq<Slip>, k: Id): seq<Slip> {
    if slips == [] then []
    else
      var before, m := PayStory(slips[..|slips| - 1], k), slips[|slips| - 1];
      if m.call.PayCall? && m.call.payKey == k then before + [m] else before
  }

  lemma PayStoryNext(slips: seq<Slip>, m: Slip, k: Id)
    ensures PayStory(slips + [m], k)
            == PayStory(slips, k) + (if m.call.PayCall? && m.call.payKey == k then [m] else [])
  {
    assert (slips + [m])[..|slips|] == slips;
  }

  /** The first answer is the stored payment, made for that request. */
  predicate Originates(m: Slip, row: Payment) {
    && m.call.PayCall? && m.answer == Settles(row)
    && row.orderId == m.call.oid && row.outcome == m.call.outcome
    && row.fingerprint == PaymentText(m.call.oid, m.call.outcome)
  }

  predicate FollowsFrom(m: Slip, row: Payment) {
    m.call.PayCall? && m.answer == PayReplay(row, m.call)
  }

  predicate PayStoryOk(story: seq<Slip>, row: Option<Payment>) {
    match row
    case None => story == []
    case Some(y) => |story| >= 1 && Originates(story[0], y) && forall i :: 1 <= i < |story| ==> FollowsFrom(story[i], y)
  }

  ghost predicate SlipsOk(slips: seq<Slip>, payments: map<Id, Payment>) {
    forall k :: PayStoryOk(PayStory(slips, k), Get(payments, k))
  }

  lemma SlipsFirst(slips: seq<Slip>, payments: map<Id, Payment>, m: Slip, row: Payment)
    requires SlipsOk(slips, payments) && m.call.PayCall? && m.call.payKey !in payments && Originates(m, row)
    ensures SlipsOk(slips + [m], payments[m.call.payKey := row])
  {
    hide PayStory;
    forall k ensures PayStoryOk(PayStory(slips + [m], k), Get(payments[m.call.payKey := row], k)) {
      PayStoryNext(slips, m, k);
      assert PayStoryOk(PayStory(slips, k), Get(payments, k));
    }
  }

  lemma SlipsRepeat(slips: seq<Slip>, payments: map<Id, Payment>, m: Slip)
    requires SlipsOk(slips, payments) && m.call.PayCall? && m.call.payKey in payments
    requires m.answer == PayReplay(payments[m.call.payKey], m.call)
    ensures SlipsOk(slips + [m], payments)
  {
    hide PayStory;
    forall k ensures PayStoryOk(PayStory(slips + [m], k), Get(payments, k)) {
      PayStoryNext(slips, m, k);
      assert PayStoryOk(PayStory(slips, k), Get(payments, k));
    }
  }

  // ---------------------------------------------------------------- steps

  lemma {:induction false} ExpireKeepsPayments(g: Db, batch: seq<Due>)
    ensures ExpireAll(g, batch).payments == g.payments
  {
    if batch != [] {
      ExpireKeepsPayments(g, batch[..|batch| - 1]);
    }
  }

  /** Only a payment callback writes a payment, and only under a new key. */
  lemma CommitPayments(g: Db, t: Txn, d: Db)
    requires t.phase.Working? && CommitsAs(g, t, d)
    ensures t.phase.goal.Pays? ==>
              && t.call.PayCall? && t.call.payKey !in g.payments
              && d.payments == g.payments[t.call.payKey := PaymentRow(t.phase.goal.pid, t.call.oid, t.call.outcome)]
    ensures !t.phase.goal.Pays? ==> d.payments == g.payments
  {
    hide BatchOk, ExpireAll, CanOpen, PaymentRow;
    if t.phase.goal.Expires? {
      ExpireKeepsPayments(g, t.phase.goal.batch);
    }
  }

  lemma SlipsCommit(s: State, tid: nat)
    requires Good(s) && SlipsOk(s.slips, s.db.payments) && Enabled(s, Commit(tid))
    ensures var n := After(s, Commit(tid)); SlipsOk(n.slips, n.db.payments)
  {
    hide Inv, TxnOk, CommitsAs, SlipsOk, Publish, Apart;
    var t := s.txns[tid];
    CommitRefines(s.db, t);
    CommitPayments(s.db, t, View(s.db, t));
    if t.phase.goal.Pays? {
      var row := PaymentRow(t.phase.goal.pid, t.call.oid, t.call.outcome);
      SlipsFirst(s.slips, s.db.payments, Slip(t.call, Settles(row)), row);
    }
  }

  lemma CatalogPaysNothing(s: State, e: Step)
    requires Enabled(s, e) && (CatalogStep(e) || e.PurgeKeys?)
    ensures After(s, e).slips == s.slips && After(s, e).db.payments == s.db.payments
  {
  }

  lemma SlipsReplay(s: State, tid: nat)
    requires SlipsOk(s.slips, s.db.payments) && Enabled(s, ReplayPayment(tid))
    ensures var n := After(s, ReplayPayment(tid)); SlipsOk(n.slips, n.db.payments)
  {
    hide SlipsOk;
    var t := s.txns[tid];
    SlipsRepeat(s.slips, s.db.payments, Slip(t.call, PayReplay(s.db.payments[t.call.payKey], t.call)));
  }

  lemma SlipsStep(s: State, e: Step)
    requires Good(s) && SlipsOk(s.slips, s.db.payments) && Enabled(s, e)
    ensures SlipsOk(After(s, e).slips, After(s, e).db.payments)
  {
    hide Good, Enabled, After, SlipsOk;
    if e.Commit? {
      SlipsCommit(s, e.tid);
    } else if e.ReplayPayment? {
      SlipsReplay(s, e.tid);
    } else if CatalogStep(e) || e.PurgeKeys? {
      CatalogPaysNothing(s, e);
    } else {
      TablesStay(s, e);
    }
  }

  lemma {:induction false} RunsKeepSlips(run: seq<State>, steps: seq<Step>, db: Db)
    requires IsRun(run, steps) && Starts(run[0], db) && Inv(db) && db.payments == map[]
    ensures forall i :: 0 <= i < |run| ==> SlipsOk(run[i].slips, run[i].db.payments)
    decreases |steps|
  {
    hide Inv, Good, Enabled, After;
    if steps != [] {
      var n := |steps| - 1;
      assert IsRun(run[..n + 1], steps[..n]);
      RunsKeepSlips(run[..n + 1], steps[..n], db);
      RunsKeepGood(run, steps, db);
      SlipsStep(run[n], steps[n]);
    }
  }

  // ---------------------------------------------------------------- what a caller can rely on

  predicate SamePayment(c: Call, d: Call)
    requires c.PayCall? && d.PayCall?
  {
    c.oid == d.oid && c.outcome == d.outcome
  }

  /** The first settled callback got the payment it asked for, every repeat of it the same payment marked
      duplicate, every other order or outcome a conflict. */
  ghost predicate PaidOnce(story: seq<Slip>, stored: Option<Payment>) {
    if stored.None? then story == []
    else
      && story != [] && story[0].call.PayCall? && story[0].answer == Settles(stored.value)
      && stored.value.orderId == story[0].call.oid && stored.value.outcome == story[0].call.outcome
      && forall i :: 1 <= i < |story| ==>
           story[i].call.PayCall? &&
           story[i].answer == if SamePayment(story[i].call, story[0].call) then Repeats(stored.value) else Clashes
  }

  /** Over every interleaving, with aborts anywhere: a payment key settles at most once, and everything
      told under it afterwards follows from that one payment, which is the row in the table. */
  lemma PaymentIsExactlyOnce(run: seq<State>, steps: seq<Step>, db: Db, i: nat, k: Id)
    requires IsRun(run, steps) && Starts(run[0], db) && Inv(db) && db.payments == map[] && i < |run|
    ensures PaidOnce(PayStory(run[i].slips, k), Get(run[i].db.payments, k))
  {
    hide Inv, IsRun, PayStory;
    RunsKeepSlips(run, steps, db);
    var story, stored := PayStory(run[i].slips, k), Get(run[i].db.payments, k);
    assert PayStoryOk(story, stored);
    if stored.Some? {
      forall j | 1 <= j < |story|
        ensures story[j].call.PayCall?
        ensures story[j].answer == if SamePayment(story[j].call, story[0].call) then Repeats(stored.value) else Clashes
      {
        assert FollowsFrom(story[j], stored.value) && Originates(story[0], stored.value);
        var c, d := story[j].call, story[0].call;
        SamePaymentRequest(d.oid, d.outcome, c.oid, c.outcome);
      }
    }
  }
}
