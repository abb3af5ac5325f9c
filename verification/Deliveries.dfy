/** Webhook deliveries that fail, are repeated, and in the end succeed. */
module Deliveries {
  import opened Prelude
  import opened Keys
  import opened Engine
  import opened Invariant
  import opened Machine
  import opened Once
  import opened Theorems
  import opened Effects
  import opened Reviews
  import G = Gateways
  import C = Credits

  // ----- A delivery that does not commit -----

  predicate By(a: Action, i: nat) {
    (a.Step? && a.worker == i) || (a.FailCall? && a.worker == i) || (a.Crash? && a.worker == i)
  }

  /** Nothing but the credits rows differs, and every new log row carries the delivery's own key. */
  ghost predicate OnlyCredits(db: Db, db': Db, key: string) {
    && db' == db.(purse := db'.purse)
    && db.purse.log <= db'.purse.log
    && forall k :: |db.purse.log| <= k < |db'.purse.log| ==> db'.purse.log[k].key == Some(key)
  }

  function JobKey(job: Job): string {
    Key(Begin(job))
  }

  lemma DeliveryKey(w: Worker)
    requires WebhookOf(w.job).Some?
    ensures Key(w) == JobKey(w.job)
  {
    hide CreditKey;
  }

  lemma DeliveryStep(s: State, i: nat, mint: string, opening: map<string, int>)
    requires Inv(s, opening) && i in s.workers && WebhookOf(s.workers[i].job).Some?
    ensures var s' := Advance(s, i, mint);
            if s.workers[i].pc == Commit then WebhookOf(s.workers[i].job).value in s'.db.webhooks
            else OnlyCredits(s.db, s'.db, JobKey(s.workers[i].job)) && s'.db.webhooks == s.db.webhooks
  {
    hide Inv, DoSettle, DoStart, DoFinal, DoCatch, DoDedup, DoFind, DoInsert, DoCheck, DoPost, DoLink, DoKeyCheck,
         DoRowLock, DoRecord, DoResolve, DoCallGateway, CreditKey, Owned, Released, Booked;
    var w := s.workers[i];
    OneWorker(s, i, opening);
    if w.pc == Commit {
    } else if !Visible(w.pc) {
      InvisibleIsSilent(s, i, mint);
    } else if w.pc == Settle {
      SettleOwned(s, i);
      DeliveryKey(w);
    } else {
      DeliveryShape(s.db, s.gate, s.locks, i, w);
    }
  }

  lemma DeliveryShape(db: Db, gate: Gate, locks: map<Resource, nat>, i: nat, w: Worker)
    requires WorkerOk(db, gate, locks, i, w) && WebhookOf(w.job).Some?
    ensures w.pc != CallGateway && w.pc != Final && w.pc != Catch && w.pc != Write
  {
    hide HoldsOk, AbsentOk, PostOk, CallOk;
  }

  /** One action of a delivery: its dedup row is in, or only its credits have changed. */
  lemma DeliveryDoes(s: State, a: Action, i: nat, opening: map<string, int>)
    requires Inv(s, opening) && i in s.workers && WebhookOf(s.workers[i].job).Some? && By(a, i)
    ensures i in Do(s, a).workers && Do(s, a).workers[i].job == s.workers[i].job
    ensures WebhookOf(s.workers[i].job).value in Do(s, a).db.webhooks || OnlyCredits(s.db, Do(s, a).db, JobKey(s.workers[i].job))
  {
    hide Inv, Advance, Throw, Finish, Owned, CreditKey, JobKey;
    match a
    case Step(_, mint) =>
      StepIsOwned(s, i, mint, opening);
      DeliveryStep(s, i, mint, opening);
    case FailCall(_) => ThrowIsSilent(s, i);
    case Crash(_) => FinishSilent(s, i);
    case _ =>
  }

  /**
   * In any run, whatever other calls do between its steps and however it fails: as long as a
   * delivery's id is not in the table at the end, none of its steps has committed anything
   * but credits under its own key.
   */
  lemma UncommittedDeliveryLeavesOnlyCredits(s: State, acts: seq<Action>, n: nat, i: nat, opening: map<string, int>)
    requires Initial(s, opening) && n < |acts| && By(acts[n], i)
    requires var mid := Run(s, acts[..n]);
             i in mid.workers && WebhookOf(mid.workers[i].job).Some? && WebhookOf(mid.workers[i].job).value !in Run(s, acts).db.webhooks
    ensures var mid := Run(s, acts[..n]);
            OnlyCredits(mid.db, Run(s, acts[..n + 1]).db, JobKey(mid.workers[i].job))
  {
    hide Inv, Do, Initial, CreditKey, JobKey, By, Evolves, GateGrows, OnlyCredits, WebhookOf;
    var mid := Run(s, acts[..n]);
    Reachable(s, acts[..n], opening);
    assert acts[..n + 1][..n] == acts[..n];
    DeliveryDoes(mid, acts[n], i, opening);
    var event := WebhookOf(mid.workers[i].job).value;
    PrefixEvolves(s, acts, n + 1, opening);
    if event in Run(s, acts[..n + 1]).db.webhooks {
      WebhookStays(Run(s, acts[..n + 1]).db, Run(s, acts).db, event);
    }
  }

  lemma WebhookStays(db: Db, db': Db, event: string)
    requires Evolves(db, db') && event in db.webhooks
    ensures event in db'.webhooks && db'.webhooks[event] == db.webhooks[event]
  {
  }

  // ----- charge.approved -----

  /** One charge is delivered under one event id, and the event id is used for nothing else. */
  function Only(b: Job): Job -> bool
    requires b.Approved?
  {
    (job: Job) => (job.Approved? && job.charge == b.charge) || WebhookOf(job) == Some(b.event) ==> job == b
  }

  predicate CreditPurchase(b: Job) {
    b.Approved? && b.credits.Some? && b.credits.value > 0 && b.charge != "" && b.user != ""
  }

  /** What deliveries of b have committed so far. */
  ghost predicate Converging(db: Db, b: Job)
    requires b.Approved?
  {
    && (forall k :: 0 <= k < |db.purse.log| && db.purse.log[k].source == Some(ChargeGrant(b.charge)) ==>
          db.purse.log[k] == CreditRow(Begin(b)))
    && (forall k :: 0 <= k < |db.charges| && db.charges[k].gateway == G.AUTHORIZE_NET && db.charges[k].txn == b.charge ==>
          db.charges[k] == RecordOf(b))
    && (HasCharge(db.charges, G.AUTHORIZE_NET, b.charge) <==> b.event in db.webhooks)
    && (b.event in db.webhooks ==> WroteAny(db.purse.log, ChargeGrant(b.charge)))
  }

  lemma CommitConverges(db: Db, gate: Gate, locks: map<Resource, nat>, i: nat, b: Job, w: Worker)
    requires CreditPurchase(b) && w.job == b && w.pc == Commit && WorkerOk(db, gate, locks, i, w) && Converging(db, b)
    ensures Converging(Committed(db, w), b)
  {
    ApprovedInHand(db, gate, locks, i, w);
    hide WorkerOk, CreditRow, WroteAny;
    var db' := Committed(db, w);
    if w.record.Some? {
      assert db'.charges[|db.charges|] == RecordOf(b);
    } else {
      assert db'.charges == db.charges;
    }
    assert HasCharge(db'.charges, G.AUTHORIZE_NET, b.charge);
  }

  lemma ApprovedInHand(db: Db, gate: Gate, locks: map<Resource, nat>, i: nat, w: Worker)
    requires WorkerOk(db, gate, locks, i, w) && w.pc == Commit && CreditPurchase(w.job)
    ensures WroteAny(db.purse.log, ChargeGrant(w.job.charge))
    ensures w.record.Some? || HasCharge(db.charges, G.AUTHORIZE_NET, w.job.charge)
    ensures w.record.Some? ==> w.record.value == RecordOf(w.job)
  {
    hide LedgerKey, CreditKey, DisputeKey, HoldsOk, AbsentOk, PostOk, WroteAny, HasCharge, Credit;
  }

  lemma SettleConverges(db: Db, db': Db, gate: Gate, locks: map<Resource, nat>, i: nat, b: Job, w: Worker)
    requires CreditPurchase(b) && Only(b)(w.job) && Converging(db, b)
    requires WorkerOk(db, gate, locks, i, w) && w.pc == Settle
    requires db' == db.(purse := db'.purse) && db'.purse.log == db.purse.log + [CreditRow(w)]
    ensures Converging(db', b)
  {
    hide WorkerOk, CreditKey, RecordOf, HasCharge;
    CreditCaller(db, gate, locks, i, w);
    if b.event in db.webhooks {
      WroteAnyStays(db.purse.log, db'.purse.log, ChargeGrant(b.charge));
    }
  }

  lemma OtherConverges(db: Db, db': Db, b: Job, w: Worker)
    requires b.Approved? && Only(b)(w.job) && w.job != b && Converging(db, b)
    requires OwnDelivery(db, db', w) && db'.purse.log == db.purse.log
    ensures Converging(db', b)
  {
    hide CreditRow, WroteAny;
    if db'.charges != db.charges {
      assert db'.charges == db.charges + [RecordOf(w.job)];
      if HasCharge(db'.charges, G.AUTHORIZE_NET, b.charge) {
        var k :| 0 <= k < |db'.charges| && db'.charges[k].gateway == G.AUTHORIZE_NET && db'.charges[k].txn == b.charge;
        assert k < |db.charges| && db.charges[k] == db'.charges[k];
      }
      if HasCharge(db.charges, G.AUTHORIZE_NET, b.charge) {
        ChargeStays(db.charges, db'.charges, G.AUTHORIZE_NET, b.charge);
      }
    }
  }

  lemma StepConverges(s: State, i: nat, mint: string, b: Job, opening: map<string, int>)
    requires Inv(s, opening) && i in s.workers && CreditPurchase(b) && Only(b)(s.workers[i].job) && Converging(s.db, b)
    ensures Converging(Advance(s, i, mint).db, b)
  {
    hide Inv, Advance, Converging, WorkerOk, RowsOk, CreditRow, OwnDelivery, OwnRefunds, OwnDisputes, OwnTxns, OwnLog,
         Committed;
    var w := s.workers[i];
    OneWorker(s, i, opening);
    StepIsOwned(s, i, mint, opening);
    if w.pc == Settle {
      SettleIsStep(s, i, mint);
      SettleConverges(s.db, Advance(s, i, mint).db, s.gate, s.locks, i, b, w);
    } else if w.pc == Commit && w.job == b {
      CommitIsStep(s, i, mint);
      CommitConverges(s.db, s.gate, s.locks, i, b, w);
    } else if w.pc == Commit {
      OtherConverges(s.db, Advance(s, i, mint).db, b, w);
    } else {
      SameConverges(s.db, Advance(s, i, mint).db, b);
    }
  }

  lemma SameConverges(db: Db, db': Db, b: Job)
    requires b.Approved? && Converging(db, b)
    requires db'.purse.log == db.purse.log && db'.charges == db.charges && db'.webhooks == db.webhooks
    ensures Converging(db', b)
  {
    hide CreditRow, RecordOf;
  }

  lemma SettleIsStep(s: State, i: nat, mint: string)
    requires i in s.workers && s.workers[i].pc == Settle
    ensures var s' := Advance(s, i, mint);
            s'.db == s.db.(purse := s'.db.purse) && s'.db.purse.log == s.db.purse.log + [CreditRow(s.workers[i])]
  {
    hide DoSettle, CreditRow, Owned, Moved;
    SettleOwned(s, i);
  }

  lemma CommitIsStep(s: State, i: nat, mint: string)
    requires i in s.workers && s.workers[i].pc == Commit
    ensures Advance(s, i, mint).db == Committed(s.db, s.workers[i])
  {
    hide Committed, Released;
  }

  lemma DoConverges(s: State, a: Action, b: Job, opening: map<string, int>)
    requires Inv(s, opening) && CreditPurchase(b) && AllJobs(s, Only(b)) && Converging(s.db, b)
    ensures Converging(Do(s, a).db, b)
  {
    assert b.Approved?;
    hide Inv, Advance, Throw, Finish, Unanswered, Accepted, Converging, Only, CreditPurchase, Moved;
    match a
    case Create(_, _) => SameConverges(s.db, Do(s, a).db, b);
    case ReviewNow(_, _) => SameConverges(s.db, Do(s, a).db, b);
    case RegisterCharge(_, _, _) =>
    case Spawn(_, _) =>
    case Step(i, mint) => if i in s.workers { StepConverges(s, i, mint, b, opening); }
    case FailCall(i) => if i in s.workers { ThrowIsSilent(s, i); }
    case LoseAnswer(i) => if i in s.workers { UnansweredIsSilent(s, i); }
    case Crash(i) => if i in s.workers { FinishSilent(s, i); }
  }

  lemma {:induction false} RunConverges(s: State, acts: seq<Action>, b: Job, opening: map<string, int>)
    requires Initial(s, opening) && CreditPurchase(b) && Spawns(acts, Only(b))
    ensures Converging(Run(s, acts).db, b)
  {
    assert b.Approved?;
    hide Inv, Do, CreditPurchase, Only, CreditRow, RecordOf;
    if acts != [] {
      var n := |acts| - 1;
      RunConverges(s, acts[..n], b, opening);
      Reachable(s, acts[..n], opening);
      RunKeepsJobs(s, acts[..n], Only(b), opening);
      hide Converging, Initial, AllJobs, Spawns;
      DoConverges(Run(s, acts[..n]), acts[n], b, opening);
    }
  }

  lemma ApprovedPoliced(s: State, b: Job, opening: map<string, int>)
    requires Inv(s, opening) && CreditPurchase(b) && AllJobs(s, Only(b))
    ensures Policed(s, CreditKey(ChargeGrant(b.charge)), WebhookId(b.event))
  {
    hide RowsOk, WorkerOk, CreditKey;
    forall i | i in s.workers && InCredit(s.workers[i].pc) && Key(s.workers[i]) == CreditKey(ChargeGrant(b.charge))
      ensures Guard(s.workers[i]) == Some(WebhookId(b.event))
    {
      var w := s.workers[i];
      CreditKeysSeparate(Credit(w).source, ChargeGrant(b.charge));
      CreditCaller(s.db, s.gate, s.locks, i, w);
      assert Only(b)(w.job);
    }
  }

  /**
   * Convergence. Deliver one charge.approved event any number of times, overlapping, failing
   * and dying anywhere. Once one of them commits, the rows are those of one success: exactly
   * one log row under the charge's key, for the event's user and credits, and exactly the
   * event's charge record. Until then there is no charge record and at most that one row.
   */
  lemma DeliveriesConverge(s: State, acts: seq<Action>, b: Job, opening: map<string, int>)
    requires Initial(s, opening) && CreditPurchase(b) && Spawns(acts, Only(b))
    ensures var db := Run(s, acts).db;
            var key := CreditKey(ChargeGrant(b.charge));
            && C.Count(db.purse.log, key) <= 1
            && (forall k :: 0 <= k < |db.purse.log| && db.purse.log[k].source == Some(ChargeGrant(b.charge)) ==>
                  db.purse.log[k] == C.CreditTxn(b.user, b.credits.value, C.PURCHASE, Some(key), Some(ChargeGrant(b.charge))))
            && (b.event in db.webhooks ==> C.Count(db.purse.log, key) == 1)
            && (b.event in db.webhooks <==> HasCharge(db.charges, G.AUTHORIZE_NET, b.charge))
            && ChargesUnique(db.charges)
            && (forall k :: 0 <= k < |db.charges| && db.charges[k].gateway == G.AUTHORIZE_NET && db.charges[k].txn == b.charge ==>
                  db.charges[k] == ChargeRecord(G.AUTHORIZE_NET, b.charge, b.user, b.cents))
  {
    hide Initial, RowsOk, WorkerOk, CreditKey, Do, C.Count, Policed, ChargesUnique, HasCharge, WroteAny, Spawns, Only,
         AllJobs;
    var e := Run(s, acts);
    Reachable(s, acts, opening);
    RunConverges(s, acts, b, opening);
    forall m | 0 <= m <= |acts| ensures Policed(Run(s, acts[..m]), CreditKey(ChargeGrant(b.charge)), WebhookId(b.event)) {
      Reachable(s, acts[..m], opening);
      PrefixSpawned(acts, m, Only(b));
      RunKeepsJobs(s, acts[..m], Only(b), opening);
      ApprovedPoliced(Run(s, acts[..m]), b, opening);
    }
    PolicedKeyIsUsedOnce(s, acts, CreditKey(ChargeGrant(b.charge)), WebhookId(b.event), opening);
    ChargesKnown(e.db, e.gate, opening, "", ChargeGrant(b.charge));
    if b.event in e.db.webhooks {
      WroteCounts(e.db.purse.log, ChargeGrant(b.charge));
    }
  }
}
