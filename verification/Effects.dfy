/**
 * Which rows one action can change, and for which call.
 *
 * A call that fails or dies changes no committed row and nothing at a gateway. A statement
 * changes rows only at the few points where something commits, and only rows that belong to
 * its own job.
 */
module Effects {
  import opened Prelude
  import opened Keys
  import opened Engine
  import opened Invariant
  import opened Machine
  import G = Gateways
  import L = Ledger
  import C = Credits

  /** The statements that can change something others see. */
  predicate Visible(pc: Pc) {
    pc == CallGateway || pc == Settle || pc == Commit || pc == Final || pc == Catch || pc == Write
  }

  /** Committed rows and gateways are as before, and only call i has moved, doing the same job. */
  ghost predicate Silent(s: State, s': State, i: nat) {
    && s'.db == s.db && s'.gate == s.gate && s'.required == s.required
    && Moved(s, s', i)
  }

  ghost predicate Moved(s: State, s': State, i: nat) {
    i in s.workers && i in s'.workers && s'.workers == s.workers[i := s'.workers[i]] && s'.workers[i].job == s.workers[i].job
  }

  lemma FinishSilent(s: State, i: nat)
    requires i in s.workers
    ensures Silent(s, Finish(s, i, s.workers[i]), i) && Finish(s, i, s.workers[i]).workers[i].pc == Done
  {
    hide Released;
  }

  lemma AfterCreditSilent(s: State, locks: map<Resource, nat>, i: nat, w: Worker, ok: bool)
    requires i in s.workers && w == s.workers[i]
    ensures Silent(s, AfterCredit(s.(locks := locks), i, w, ok), i)
  {
    hide Released;
  }

  /** A statement that throws rolls its transaction back and leaves every committed row as it was. */
  lemma ThrowIsSilent(s: State, i: nat)
    requires i in s.workers
    ensures Silent(s, Throw(s, i), i)
  {
    hide AfterCredit, Credit, Released;
    var w := s.workers[i];
    AfterCreditSilent(s, s.locks, i, w, false);
    assert s.(locks := s.locks) == s;
    AfterCreditSilent(s, Drop(s.locks, CreditsRow(Credit(w).user)), i, w, false);
  }

  /** Losing an answer moves the call to its error handler and nothing else. */
  lemma UnansweredIsSilent(s: State, i: nat)
    requires i in s.workers
    ensures Silent(s, Unanswered(s, i), i)
    ensures Unanswered(s, i).workers[i].pc == s.workers[i].pc || (s.workers[i].pc == Final && Unanswered(s, i).workers[i].pc == Catch)
    ensures Unanswered(s, i).locks == s.locks
  {
  }

  lemma StartSilent(s: State, i: nat)
    requires i in s.workers
    ensures Silent(s, DoStart(s, i, s.workers[i]), i)
  {
    hide Released, Given;
  }

  lemma DeliverySilent(s: State, i: nat, mint: string)
    requires i in s.workers
    requires var pc := s.workers[i].pc; pc == Dedup || pc == Find || pc == Insert || pc == Check || pc == Post || pc == Link
    ensures Silent(s, Advance(s, i, mint), i)
  {
    hide Released, LedgerKey, CreditKey, DisputeKey, HasDispute, L.HasKey, L.HasId, Lines, Source, LineAmount, DoStart, DoCallGateway, DoKeyCheck,
         DoRowLock, DoSettle, DoRecord, DoResolve, DoCommit, DoFinal, DoCatch, DoWrite;
  }

  lemma ClosingSilent(s: State, i: nat, mint: string)
    requires i in s.workers
    requires var pc := s.workers[i].pc; pc == Record || pc == Resolve || pc == Done
    ensures Silent(s, Advance(s, i, mint), i)
  {
    hide HasCharge, RecordOf, RecordsCharge, DoStart, DoCallGateway, DoDedup, DoFind, DoInsert, DoCheck, DoPost, DoLink, DoKeyCheck,
         DoRowLock, DoSettle, DoCommit, DoFinal, DoCatch, DoWrite;
  }

  /** Between its commit points a call changes nothing that anyone else can see. */
  lemma InvisibleIsSilent(s: State, i: nat, mint: string)
    requires i in s.workers && !Visible(s.workers[i].pc)
    ensures Silent(s, Advance(s, i, mint), i)
  {
    hide AfterCredit, Silent, DoStart, CreditKey;
    var w := s.workers[i];
    if w.pc == Start {
      StartSilent(s, i);
    } else if InCredit(w.pc) {
      AfterCreditSilent(s, s.locks, i, w, false);
      AfterCreditSilent(s, s.locks, i, w, true);
      assert s.(locks := s.locks) == s;
      CreditSilent(s, i);
    } else if w.pc == Record || w.pc == Resolve || w.pc == Done {
      ClosingSilent(s, i, mint);
    } else {
      DeliverySilent(s, i, mint);
    }
  }

  lemma CreditSilent(s: State, i: nat)
    requires i in s.workers
    ensures Silent(s, s, i)
    ensures s.workers[i].pc == KeyCheck ==>
      DoKeyCheck(s, i, s.workers[i]) == AfterCredit(s, i, s.workers[i], false)
      || DoKeyCheck(s, i, s.workers[i]) == AfterCredit(s, i, s.workers[i], true)
      || Silent(s, DoKeyCheck(s, i, s.workers[i]), i)
    ensures s.workers[i].pc == RowLock ==>
      DoRowLock(s, i, s.workers[i]) == AfterCredit(s, i, s.workers[i], false)
      || Silent(s, DoRowLock(s, i, s.workers[i]), i)
  {
    hide AfterCredit, CreditKey, C.HasKey, Credit;
  }

  // ----- The rows a job can change -----

  /** The refund request a job works on. */
  function RefundOfJob(job: Job): Option<string> {
    match job
    case Process(id) => Some(id)
    case Review(id, _) => Some(id)
    case _ => None
  }

  /** The dispute a job works on. */
  function DisputeOfJob(job: Job): Option<string> {
    match job
    case Outcome(d, _, _) => Some(d)
    case Evidence(d) => Some(d)
    case _ => None
  }

  ghost predicate OwnRefunds(db: Db, db': Db, job: Job) {
    && db'.refunds.Keys == db.refunds.Keys
    && forall id :: id in db.refunds && RefundOfJob(job) != Some(id) ==> db'.refunds[id] == db.refunds[id]
  }

  ghost predicate OwnDisputes(db: Db, db': Db, job: Job) {
    && (forall d :: d in db.disputes ==> d in db'.disputes && (DisputeOfJob(job) != Some(d) ==> db'.disputes[d] == db.disputes[d]))
    && (forall d :: d in db'.disputes && d !in db.disputes ==> db'.disputes[d].status == OPEN)
  }

  ghost predicate OwnTxns(db: Db, db': Db, w: Worker) {
    db'.books.txns == db.books.txns
    || (PostsLedger(w.job) && w.post.Some? && db'.books.txns == db.books.txns + [w.post.value] && w.post.value.source == Some(Source(w)))
  }

  ghost predicate OwnLog(db: Db, db': Db, w: Worker) {
    db'.purse.log == db.purse.log || (w.pc == Settle && db'.purse.log == db.purse.log + [CreditRow(w)])
  }

  ghost predicate OwnDelivery(db: Db, db': Db, w: Worker) {
    && (db'.webhooks == db.webhooks
        || (WebhookOf(w.job).Some? && db'.webhooks == db.webhooks[WebhookOf(w.job).value := if w.job.Confirm? then G.SOLANA else G.AUTHORIZE_NET]))
    && (db'.charges == db.charges || (RecordsCharge(w.job) && db'.charges == db.charges + [RecordOf(w.job)]))
  }

  /** Everything that differs between the two sets of rows belongs to the call's own job. */
  ghost predicate Owned(db: Db, db': Db, w: Worker) {
    OwnRefunds(db, db', w.job) && OwnDisputes(db, db', w.job) && OwnTxns(db, db', w) && OwnLog(db, db', w) && OwnDelivery(db, db', w)
  }

  lemma SameOwned(db: Db, w: Worker)
    ensures Owned(db, db, w)
  {
  }

  lemma SettleOwned(s: State, i: nat)
    requires i in s.workers && s.workers[i].pc == Settle
    ensures var s' := DoSettle(s, i, s.workers[i]);
            && Owned(s.db, s'.db, s.workers[i]) && s'.gate == s.gate && Moved(s, s', i)
            && s'.db == s.db.(purse := s'.db.purse) && s'.db.purse.log == s.db.purse.log + [CreditRow(s.workers[i])]
  {
    hide AfterCredit, CreditRow, Credit;
    var w := s.workers[i];
    var c := Credit(w);
    var row := CreditRow(w);
    var db := s.db.(purse := C.Purse(s.db.purse.balances[c.user := w.bal + row.amount], s.db.purse.log + [row]));
    var mid := s.(db := db);
    AfterCreditSilent(mid, Drop(s.locks, CreditsRow(c.user)), i, w, true);
    assert mid.(locks := Drop(s.locks, CreditsRow(c.user))) == s.(db := db, locks := Drop(s.locks, CreditsRow(c.user)));
  }

  /** What a call about to commit has in hand. */
  lemma InHand(db: Db, gate: Gate, locks: map<Resource, nat>, i: nat, w: Worker)
    requires WorkerOk(db, gate, locks, i, w)
    ensures w.post.Some? ==> PostsLedger(w.job) && w.post.value.source == Some(Source(w)) && w.post.value.key == Some(LedgerKey(Source(w)))
    ensures w.record.Some? ==> RecordsCharge(w.job) && w.record.value == RecordOf(w.job)
    ensures w.pc == Commit && w.job.Chargeback? && w.linked ==> w.disp !in db.disputes && w.dis.status == OPEN
    ensures w.pc == Commit && w.job.Chargeback? && !w.linked ==> w.post.None?
  {
    hide LedgerKey, CreditKey, DisputeKey, L.HasKey, L.HasId, HasDispute, HasSource, ProcessOk, HasCharge, Wrote,
         WroteAny, Lines, Shape, Credit, HoldsOk;
  }

  lemma BookedTxns(books: L.Books, w: Worker)
    ensures Booked(books, w).txns == books.txns + (if w.post.Some? then [w.post.value] else [])
  {
    hide Lines;
  }

  lemma CommittedRefunds(db: Db, w: Worker)
    ensures OwnRefunds(db, Committed(db, w), w.job) && Committed(db, w).purse == db.purse
  {
    hide Booked;
  }

  lemma CommittedDisputes(db: Db, w: Worker)
    requires w.job.Chargeback? && w.linked ==> w.disp !in db.disputes && w.dis.status == OPEN
    ensures OwnDisputes(db, Committed(db, w), w.job)
  {
    hide Booked;
  }

  lemma CommittedBooks(db: Db, w: Worker)
    requires w.post.Some? ==> PostsLedger(w.job) && w.post.value.source == Some(Source(w))
    requires w.job.Chargeback? && !w.linked ==> w.post.None?
    ensures OwnTxns(db, Committed(db, w), w)
  {
    hide Booked, Source;
    BookedTxns(db.books, w);
  }

  lemma CommittedDelivery(db: Db, w: Worker)
    requires w.record.Some? ==> RecordsCharge(w.job) && w.record.value == RecordOf(w.job)
    ensures OwnDelivery(db, Committed(db, w), w)
  {
    hide Booked, RecordOf;
  }

  lemma CommittedOwned(db: Db, w: Worker)
    requires w.post.Some? ==> PostsLedger(w.job) && w.post.value.source == Some(Source(w))
    requires w.record.Some? ==> RecordsCharge(w.job) && w.record.value == RecordOf(w.job)
    requires w.job.Chargeback? && w.linked ==> w.disp !in db.disputes && w.dis.status == OPEN
    requires w.job.Chargeback? && !w.linked ==> w.post.None?
    ensures Owned(db, Committed(db, w), w) && Committed(db, w).purse == db.purse
  {
    hide Committed, Source, RecordOf, CreditRow, OwnRefunds, OwnDisputes, OwnTxns, OwnDelivery;
    CommittedRefunds(db, w);
    CommittedDisputes(db, w);
    CommittedBooks(db, w);
    CommittedDelivery(db, w);
  }

  lemma CommitOwned(s: State, i: nat, opening: map<string, int>)
    requires Inv(s, opening) && i in s.workers && s.workers[i].pc == Commit
    ensures var s' := DoCommit(s, i, s.workers[i]);
            && Owned(s.db, s'.db, s.workers[i]) && s'.gate == s.gate && Moved(s, s', i)
            && s'.db.purse == s.db.purse
  {
    var w := s.workers[i];
    assert WorkerOk(s.db, s.gate, s.locks, i, w);
    hide Inv, WorkerOk, RowsOk, Owned, Committed, LedgerKey, Released, Source, RecordOf, RecordsCharge;
    InHand(s.db, s.gate, s.locks, i, w);
    CommittedOwned(s.db, w);
  }

  lemma FinalOwned(s: State, i: nat)
    requires i in s.workers && (s.workers[i].pc == Final || s.workers[i].pc == Catch)
    ensures var s' := Advance(s, i, "");
            && Owned(s.db, s'.db, s.workers[i]) && s'.gate == s.gate && Moved(s, s', i)
            && s'.db == s.db.(refunds := s'.db.refunds, disputes := s'.db.disputes)
  {
    hide Released, CreditRow, RecordOf, RecordsCharge, Source, DoStart, DoCallGateway, DoDedup, DoFind, DoInsert, DoCheck, DoPost, DoLink,
         DoKeyCheck, DoRowLock, DoSettle, DoRecord, DoResolve, DoCommit;
  }

  lemma WriteOwned(s: State, i: nat)
    requires i in s.workers && s.workers[i].pc == Write
    ensures var s' := Advance(s, i, "");
            && Owned(s.db, s'.db, s.workers[i]) && s'.gate == s.gate && Moved(s, s', i)
            && s'.db == s.db.(refunds := s'.db.refunds, disputes := s'.db.disputes)
  {
    hide Finish, Owned, DoStart, DoCallGateway, DoDedup, DoFind, DoInsert, DoCheck, DoPost, DoLink,
         DoKeyCheck, DoRowLock, DoSettle, DoRecord, DoResolve, DoCommit;
    var w := s.workers[i];
    SameOwned(s.db, w);
    match w.job
    case Review(id, approve) =>
      if id in s.db.refunds {
        var r := s.db.refunds[id].(status := if approve then APPROVED else DENIED);
        var mid := s.(db := s.db.(refunds := s.db.refunds[id := r]));
        FinishSilent(mid, i);
        RowsOwned(s.db, mid.db, w);
      }
    case Evidence(d) =>
      if d in s.db.disputes {
        var x := s.db.disputes[d].(status := EVIDENCE_SUBMITTED);
        var mid := s.(db := s.db.(disputes := s.db.disputes[d := x]));
        FinishSilent(mid, i);
        RowsOwned(s.db, mid.db, w);
      }
    case _ =>
  }

  lemma RowsOwned(db: Db, db': Db, w: Worker)
    requires db' == db.(refunds := db'.refunds, disputes := db'.disputes)
    requires OwnRefunds(db, db', w.job) && OwnDisputes(db, db', w.job)
    ensures Owned(db, db', w)
  {
    hide CreditRow, RecordOf, RecordsCharge, Source;
  }

  /** What one statement of a call changes: only rows of its own job, and never rows and gateway together. */
  lemma StepIsOwned(s: State, i: nat, mint: string, opening: map<string, int>)
    requires Inv(s, opening) && i in s.workers
    ensures var s' := Advance(s, i, mint);
            && Owned(s.db, s'.db, s.workers[i]) && Moved(s, s', i)
            && (s'.gate == s.gate || (s.workers[i].pc == CallGateway && s.workers[i].job.Process? && s'.db == s.db))
            && (s.workers[i].pc != Settle ==> s'.db.purse == s.db.purse)
            && (s.workers[i].pc != Commit ==> s'.db.books == s.db.books && s'.db.webhooks == s.db.webhooks && s'.db.charges == s.db.charges)
  {
    hide Inv, Owned, DoSettle, DoCommit, DoStart, DoFinal, DoCatch, DoWrite, DoDedup, DoFind, DoInsert, DoCheck, DoPost, DoLink, DoKeyCheck,
         DoRowLock, DoRecord, DoResolve, G.AfterRefund, G.Answer, CreditKey;
    var w := s.workers[i];
    if !Visible(w.pc) {
      InvisibleIsSilent(s, i, mint);
      SameOwned(s.db, w);
    } else if w.pc == CallGateway {
      SameOwned(s.db, w);
    } else if w.pc == Settle {
      SettleOwned(s, i);
    } else if w.pc == Commit {
      CommitOwned(s, i, opening);
    } else {
      if w.pc == Write { WriteOwned(s, i); } else { FinalOwned(s, i); }
      assert Advance(s, i, "") == Advance(s, i, mint);
    }
  }

  // ----- Jobs -----

  ghost predicate AllJobs(s: State, allowed: Job -> bool) {
    forall i :: i in s.workers ==> allowed(s.workers[i].job)
  }

  ghost predicate Spawns(acts: seq<Action>, allowed: Job -> bool) {
    forall k :: 0 <= k < |acts| && acts[k].Spawn? ==> allowed(acts[k].job)
  }

  lemma DoKeepsJobs(s: State, a: Action, allowed: Job -> bool, opening: map<string, int>)
    requires Inv(s, opening) && AllJobs(s, allowed) && (a.Spawn? ==> allowed(a.job))
    ensures AllJobs(Do(s, a), allowed)
  {
    hide Inv, Advance, Throw, Finish, Accepted, Owned;
    match a
    case Create(_, _) =>
    case ReviewNow(_, _) =>
    case RegisterCharge(_, _, _) =>
    case Spawn(_, _) =>
    case Step(i, mint) => if i in s.workers { StepIsOwned(s, i, mint, opening); }
    case FailCall(i) => if i in s.workers { ThrowIsSilent(s, i); }
    case LoseAnswer(i) => if i in s.workers { UnansweredIsSilent(s, i); }
    case Crash(i) => if i in s.workers { FinishSilent(s, i); }
  }

  /** Every call in progress does a job that was started. */
  lemma {:induction false} RunKeepsJobs(s: State, acts: seq<Action>, allowed: Job -> bool, opening: map<string, int>)
    requires Initial(s, opening) && Spawns(acts, allowed)
    ensures AllJobs(Run(s, acts), allowed)
  {
    hide Inv, Do;
    if acts != [] {
      var n := |acts| - 1;
      RunKeepsJobs(s, acts[..n], allowed, opening);
      Reachable(s, acts[..n], opening);
      DoKeepsJobs(Run(s, acts[..n]), acts[n], allowed, opening);
    }
  }

  lemma CommitReleases(s: State, i: nat, mint: string)
    requires i in s.workers && s.workers[i].pc == Commit
    ensures var e := Do(s, Step(i, mint));
            && e.db == Committed(s.db, s.workers[i]) && e.locks == Released(s.locks, i)
            && i in e.workers && e.workers == s.workers[i := e.workers[i]]
  {
    hide Committed, Released;
  }
}
