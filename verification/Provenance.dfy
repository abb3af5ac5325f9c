/**
 * Where every committed row comes from.
 *
 * In every reachable state each row of each table says what a call that was started, or a
 * request that was made, asked for: its user, its amount, its accounts and its key. The
 * statements spell the rows out; they use none of the functions the engine builds them with.
 */
module Provenance {
  import opened Prelude
  import opened Keys
  import opened Engine
  import opened Invariant
  import opened Machine
  import opened Totals
  import opened Theorems
  import opened Effects
  import opened Reviews
  import G = Gateways
  import L = Ledger
  import C = Credits

  // ----- What each row says -----

  ghost predicate DisputeSays(x: Dispute, jobs: Job -> bool) {
    && x.gatewayDisputeId == "an_dispute_" + x.charge && x.amount > 0
    && exists event :: jobs(Chargeback(event, x.charge, x.user, x.amount))
  }

  ghost predicate CreditSays(db: Db, required: int, t: C.CreditTxn, jobs: Job -> bool) {
    && t.source.Some?
    && match t.source.value
       case RefundDeduct(id) =>
         && id in db.refunds && db.refunds[id].kind == PAYMENT
         && t == C.CreditTxn(db.refunds[id].user, -db.refunds[id].amount, C.USAGE, Some("refund_" + id), t.source)
       case RefundGrant(id) =>
         && id in db.refunds && db.refunds[id].kind == CREDITS
         && t == C.CreditTxn(db.refunds[id].user, db.refunds[id].amount, C.REFUND, Some("refund_" + id), t.source)
       case WonGrant(d) =>
         && d in db.disputes && (exists fee :: jobs(Outcome(d, true, fee)))
         && t == C.CreditTxn(db.disputes[d].user, db.disputes[d].amount, C.REFUND, Some("dispute_won_" + d), t.source)
       case ChargebackDeduct(charge) =>
         && t.amount < 0 && (exists event, amount :: t.amount == -amount && jobs(Chargeback(event, charge, t.user, amount)))
         && t.kind == C.USAGE && t.key == Some("chargeback_" + charge)
       case ChargeReversal(charge) =>
         && t.amount < 0 && (exists event, taken :: t.amount == -taken && jobs(Refunded(event, charge, t.user, taken)))
         && t.kind == C.USAGE && t.key == Some("authorize_net_refund_" + charge)
       case ChargeGrant(charge) =>
         && t.amount > 0 && (exists event, cents :: jobs(Approved(event, charge, t.user, Some(t.amount), cents)))
         && t.kind == C.PURCHASE && t.key == Some("authorize_net_charge_" + charge)
       case SolanaGrant(hash) =>
         && t.amount > 0 && (exists depth :: depth >= required && jobs(Confirm(hash, t.user, t.amount, depth)))
         && t.kind == C.PURCHASE && t.key == Some("solana_charge_" + hash)
  }

  ghost predicate TxnSays(db: Db, t: L.Txn, jobs: Job -> bool) {
    && t.source.Some?
    && match t.source.value
       case RefundOf(id) =>
         && id in db.refunds && t.key == Some("refund_" + id + "_ledger")
         && var r := db.refunds[id];
            t.entries == [L.Entry(L.Account("test-admin-1", L.REVENUE), L.DEBIT, r.amount),
                          L.Entry(L.Account(r.user, L.ASSET), L.CREDIT, r.amount)]
       case ReversalOf(charge) =>
         && t.key == Some("chargeback_" + charge + "_reversal_ledger")
         && exists d :: d in db.disputes && db.disputes[d].charge == charge
              && t.entries == [L.Entry(L.Account("test-admin-1", L.REVENUE), L.DEBIT, db.disputes[d].amount),
                               L.Entry(L.Account(db.disputes[d].user, L.ASSET), L.CREDIT, db.disputes[d].amount)]
       case WonOf(d) =>
         && d in db.disputes && t.key == Some("dispute_won_" + d + "_ledger")
         && (exists fee :: jobs(Outcome(d, true, fee)))
         && var x := db.disputes[d];
            t.entries == [L.Entry(L.Account(x.user, L.ASSET), L.DEBIT, x.amount),
                          L.Entry(L.Account("test-admin-1", L.REVENUE), L.CREDIT, x.amount)]
       case LostOf(d) =>
         && d in db.disputes && t.key == Some("dispute_lost_" + d + "_fee_ledger")
         && exists fee :: fee > 0 && jobs(Outcome(d, false, fee))
              && t.entries == [L.Entry(L.Account("test-admin-1", L.EXPENSE), L.DEBIT, fee),
                               L.Entry(L.Account(db.disputes[d].user, L.ASSET), L.CREDIT, fee)]
  }

  ghost predicate ChargeSays(rec: ChargeRecord, required: int, jobs: Job -> bool) {
    match rec.gateway
    case AUTHORIZE_NET =>
      rec.txn != "" && rec.user != "" && exists event, credits :: jobs(Approved(event, rec.txn, rec.user, credits, rec.amount))
    case SOLANA =>
      rec.txn != "" && exists depth :: depth >= required && jobs(Confirm(rec.txn, rec.user, rec.amount, depth))
  }

  /** The request's own terms; the charge may be filled in when a payment request names none. */
  ghost predicate RefundSays(db: Db, id: string, r: Refund, asked: (string, Request) -> bool) {
    exists q: Request ::
      && asked(id, q) && q.amount > 0
      && r.user == q.user && r.kind == q.kind && r.amount == q.amount && r.gateway == q.gateway
      && (r.charge == q.charge
          || (&& q.kind == PAYMENT && (q.charge.None? || q.charge.value == "") && r.charge.Some?
              && exists rec :: rec in db.charges && Some(rec.gateway) == q.gateway && rec.user == q.user && rec.txn == r.charge.value))
  }

  /** What a delivery that was applied has left behind, for good. */
  ghost predicate InEffect(db: Db, job: Job, id: string, required: int)
    requires id in db.webhooks
  {
    match job
    case Approved(event, charge, user, credits, _) =>
      && event == id && db.webhooks[id] == G.AUTHORIZE_NET
      && (credits.Some? ==> exists t :: t in db.purse.log && t.source == Some(ChargeGrant(charge)))
      && (charge != "" && user != "" ==> exists rec :: rec in db.charges && rec.gateway == G.AUTHORIZE_NET && rec.txn == charge)
    case Confirm(hash, _, _, depth) =>
      && hash == id && db.webhooks[id] == G.SOLANA && depth >= required
      && (exists t :: t in db.purse.log && t.source == Some(SolanaGrant(hash)))
      && (exists rec :: rec in db.charges && rec.gateway == G.SOLANA && rec.txn == hash)
    case Chargeback(event, charge, _, _) =>
      event == id && db.webhooks[id] == G.AUTHORIZE_NET && exists d :: d in db.disputes && db.disputes[d].charge == charge
    case Refunded(event, _, _, _) => event == id && db.webhooks[id] == G.AUTHORIZE_NET
    case Other(event) => event == id && db.webhooks[id] == G.AUTHORIZE_NET
    case _ => false
  }

  ghost predicate DeliverySays(db: Db, id: string, required: int, jobs: Job -> bool)
    requires id in db.webhooks
  {
    id != "" && exists job :: jobs(job) && InEffect(db, job, id, required)
  }

  /** Every row of every table is as some call or request of the run would have it. */
  ghost predicate AllSaid(db: Db, required: int, jobs: Job -> bool, asked: (string, Request) -> bool) {
    && (forall id :: id in db.refunds ==> RefundSays(db, id, db.refunds[id], asked))
    && (forall d :: d in db.disputes ==> DisputeSays(db.disputes[d], jobs))
    && (forall t :: t in db.purse.log ==> CreditSays(db, required, t, jobs))
    && (forall t :: t in db.books.txns ==> TxnSays(db, t, jobs))
    && (forall rec :: rec in db.charges ==> ChargeSays(rec, required, jobs))
    && (forall id :: id in db.webhooks ==> DeliverySays(db, id, required, jobs))
  }

  // ----- Rows stay as they were written -----

  lemma CreditStays(db: Db, db': Db, required: int, t: C.CreditTxn, jobs: Job -> bool)
    requires Evolves(db, db') && CreditSays(db, required, t, jobs)
    ensures CreditSays(db', required, t, jobs)
  {
  }

  lemma PostingStays(db: Db, db': Db, t: L.Txn, jobs: Job -> bool)
    requires Evolves(db, db') && TxnSays(db, t, jobs)
    ensures TxnSays(db', t, jobs)
  {
    if t.source.value.ReversalOf? {
      var d :| d in db.disputes && db.disputes[d].charge == t.source.value.charge
        && t.entries == [L.Entry(L.Account("test-admin-1", L.REVENUE), L.DEBIT, db.disputes[d].amount),
                         L.Entry(L.Account(db.disputes[d].user, L.ASSET), L.CREDIT, db.disputes[d].amount)];
      assert SameDispute(db.disputes[d], db'.disputes[d]);
    }
  }

  lemma MembersStay<T>(xs: seq<T>, ys: seq<T>)
    requires xs <= ys
    ensures forall x :: x in xs ==> x in ys
  {
    forall x | x in xs ensures x in ys {
      var k :| 0 <= k < |xs| && xs[k] == x;
      assert ys[k] == x;
    }
  }

  lemma RequestStays(db: Db, db': Db, id: string, r: Refund, r': Refund, asked: (string, Request) -> bool)
    requires Evolves(db, db') && SameTerms(r, r') && RefundSays(db, id, r, asked)
    ensures RefundSays(db', id, r', asked)
  {
    MembersStay(db.charges, db'.charges);
    var q :| asked(id, q) && q.amount > 0
      && r.user == q.user && r.kind == q.kind && r.amount == q.amount && r.gateway == q.gateway
      && (r.charge == q.charge
          || (&& q.kind == PAYMENT && (q.charge.None? || q.charge.value == "") && r.charge.Some?
              && exists rec :: rec in db.charges && Some(rec.gateway) == q.gateway && rec.user == q.user && rec.txn == r.charge.value));
    assert asked(id, q);
  }

  lemma EffectStays(db: Db, db': Db, job: Job, id: string, required: int)
    requires Evolves(db, db') && id in db.webhooks && InEffect(db, job, id, required)
    ensures id in db'.webhooks && InEffect(db', job, id, required)
  {
    MembersStay(db.charges, db'.charges);
    MembersStay(db.purse.log, db'.purse.log);
    if job.Chargeback? {
      var d :| d in db.disputes && db.disputes[d].charge == job.charge;
      assert SameDispute(db.disputes[d], db'.disputes[d]);
    }
  }

  // ----- What a call knows and no row does yet -----

  ghost predicate Knows(db: Db, required: int, w: Worker) {
    && (WebhookOf(w.job).Some? && w.pc != Start && w.pc != Done ==> WebhookOf(w.job).value != "")
    && (w.job.Confirm? && w.pc != Start && w.pc != Done ==> w.job.depth >= required)
    && (w.job.Chargeback? && w.pc == Commit && !w.linked ==> HasDispute(db.disputes, DisputeKey(w.job.charge)))
  }

  lemma KnowsStays(db: Db, db': Db, required: int, w: Worker)
    requires Evolves(db, db') && Knows(db, required, w)
    ensures Knows(db', required, w)
  {
    hide DisputeKey;
    if w.job.Chargeback? && w.pc == Commit && !w.linked {
      var d :| d in db.disputes && db.disputes[d].gatewayDisputeId == DisputeKey(w.job.charge);
      assert SameDispute(db.disputes[d], db'.disputes[d]);
    }
  }

  lemma KnowsStart(s: State, i: nat)
    requires i in s.workers && s.workers[i].pc == Start
    ensures Knows(s.db, s.required, DoStart(s, i, s.workers[i]).workers[i])
  {
    hide Released, DisputeKey, HasDispute;
  }

  lemma KnowsFind(s: State, i: nat)
    requires i in s.workers && s.workers[i].pc == Find && Knows(s.db, s.required, s.workers[i])
    ensures Knows(s.db, s.required, DoFind(s, i, s.workers[i]).workers[i])
  {
    hide DisputeKey, HasDispute;
  }

  lemma KnowsCredit(s: State, i: nat, mint: string)
    requires i in s.workers && InCredit(s.workers[i].pc) && Knows(s.db, s.required, s.workers[i])
    requires s.workers[i].job.Chargeback? ==> s.workers[i].linked
    ensures Knows(s.db, s.required, Advance(s, i, mint).workers[i])
  {
    hide DisputeKey, HasDispute, CreditKey, C.HasKey, C.Balance, Credit, Released;
  }

  lemma KnowsOther(s: State, i: nat, mint: string)
    requires i in s.workers && Knows(s.db, s.required, s.workers[i])
    requires var pc := s.workers[i].pc; pc != Start && pc != Find && !InCredit(pc)
    requires s.workers[i].job.Chargeback? ==> s.workers[i].pc != Record && s.workers[i].pc != Resolve
    ensures Knows(s.db, s.required, Advance(s, i, mint).workers[i])
  {
    hide DisputeKey, HasDispute, LedgerKey, CreditKey, L.HasKey, L.HasId, Released, Lines, Source, HasCharge, RecordOf, RecordsCharge, Committed,
         DoStart, DoFind, DoKeyCheck, DoRowLock, DoSettle, G.AfterRefund, G.Answer;
  }

  lemma ChargebackShape(db: Db, gate: Gate, locks: map<Resource, nat>, i: nat, w: Worker)
    requires WorkerOk(db, gate, locks, i, w) && w.job.Chargeback?
    ensures InCredit(w.pc) ==> w.linked
    ensures w.pc != Record && w.pc != Resolve
  {
    hide HoldsOk, AbsentOk, PostOk;
  }

  lemma KnowsAdvance(s: State, i: nat, mint: string, opening: map<string, int>)
    requires Inv(s, opening) && i in s.workers && Knows(s.db, s.required, s.workers[i])
    ensures i in Advance(s, i, mint).workers && Knows(s.db, s.required, Advance(s, i, mint).workers[i])
  {
    hide Inv, WorkerOk, RowsOk, Knows, DoFind, DoStart, Owned;
    OneWorker(s, i, opening);
    StepIsOwned(s, i, mint, opening);
    if s.workers[i].job.Chargeback? {
      ChargebackShape(s.db, s.gate, s.locks, i, s.workers[i]);
    }
    if s.workers[i].pc == Start {
      KnowsStart(s, i);
    } else if s.workers[i].pc == Find {
      KnowsFind(s, i);
    } else if InCredit(s.workers[i].pc) {
      KnowsCredit(s, i, mint);
    } else {
      KnowsOther(s, i, mint);
    }
  }

  // ----- What one statement adds -----

  /** The credit row a call writes. */
  lemma RowSays(db: Db, gate: Gate, locks: map<Resource, nat>, i: nat, w: Worker, required: int, jobs: Job -> bool)
    requires WorkerOk(db, gate, locks, i, w) && w.pc == Settle && Knows(db, required, w) && jobs(w.job)
    ensures CreditSays(db, required, CreditRow(w), jobs)
  {
    hide HoldsOk, AbsentOk, PostOk, LedgerKey, DisputeKey, HasDispute;
    CreditCaller(db, gate, locks, i, w);
    assert Shape(w) && CallOk(db, gate, w);
    match w.job
    case Process(_) =>
    case Outcome(d, _, fee) => assert jobs(Outcome(d, true, fee));
    case _ =>
  }

  lemma NewCredit(s: State, i: nat, mint: string, t: C.CreditTxn, jobs: Job -> bool, opening: map<string, int>)
    requires Inv(s, opening) && i in s.workers && Knows(s.db, s.required, s.workers[i]) && jobs(s.workers[i].job)
    requires t in Advance(s, i, mint).db.purse.log && t !in s.db.purse.log
    ensures CreditSays(s.db, s.required, t, jobs)
  {
    hide Inv, WorkerOk, RowsOk, Knows, Advance, CreditRow, CreditSays, OwnRefunds, OwnDisputes, OwnTxns, OwnDelivery;
    OneWorker(s, i, opening);
    StepIsOwned(s, i, mint, opening);
    RowSays(s.db, s.gate, s.locks, i, s.workers[i], s.required, jobs);
  }

  /** What a call that commits has in hand, and what its commit leaves. */
  lemma PostingSays(db: Db, gate: Gate, locks: map<Resource, nat>, i: nat, w: Worker, jobs: Job -> bool)
    requires WorkerOk(db, gate, locks, i, w) && w.pc == Commit && w.post.Some? && jobs(w.job)
    ensures TxnSays(Committed(db, w), w.post.value, jobs)
  {
    hide HoldsOk, DisputeKey, HasDispute, Booked, CreditKey, L.HasKey, L.HasId;
    assert Shape(w) && PostOk(db, w) && CallOk(db, gate, w) && AbsentOk(db, w);
    match w.job
    case Process(id) => assert ProcessOk(db, gate, w);
    case Chargeback(_, charge, user, amount) =>
      var x := Committed(db, w).disputes[w.disp];
      assert x.charge == charge && x.user == user && x.amount == amount;
    case Outcome(d, won, fee) => assert jobs(Outcome(d, won, fee));
    case _ =>
  }

  lemma NewPosting(s: State, i: nat, mint: string, t: L.Txn, jobs: Job -> bool, opening: map<string, int>)
    requires Inv(s, opening) && i in s.workers && jobs(s.workers[i].job)
    requires t in Advance(s, i, mint).db.books.txns && t !in s.db.books.txns
    ensures TxnSays(Advance(s, i, mint).db, t, jobs)
  {
    hide Inv, WorkerOk, RowsOk, Advance, TxnSays, Committed, OwnRefunds, OwnDisputes, OwnLog, OwnDelivery, Source;
    OneWorker(s, i, opening);
    StepIsOwned(s, i, mint, opening);
    CommitIsCommitted(s, i, mint);
    PostingSays(s.db, s.gate, s.locks, i, s.workers[i], jobs);
  }

  lemma CommitIsCommitted(s: State, i: nat, mint: string)
    requires i in s.workers && s.workers[i].pc == Commit
    ensures Advance(s, i, mint).db == Committed(s.db, s.workers[i])
  {
    hide Committed, Released;
  }

  lemma DisputeFiled(db: Db, gate: Gate, locks: map<Resource, nat>, i: nat, w: Worker, d: string, jobs: Job -> bool)
    requires WorkerOk(db, gate, locks, i, w) && w.pc == Commit && jobs(w.job)
    requires d in Committed(db, w).disputes && d !in db.disputes
    ensures Committed(db, w).disputes[d].gatewayDisputeId == "an_dispute_" + Committed(db, w).disputes[d].charge
    ensures w.job.Chargeback? && Committed(db, w).disputes[d].charge == w.job.charge
    ensures Committed(db, w).disputes[d].user == w.job.user && Committed(db, w).disputes[d].amount == w.job.amount
  {
    hide HoldsOk, Booked, CreditKey, LedgerKey, L.HasKey, L.HasId, PostOk;
  }

  lemma NewDispute(s: State, i: nat, mint: string, d: string, jobs: Job -> bool, opening: map<string, int>)
    requires Inv(s, opening) && i in s.workers && jobs(s.workers[i].job) && Inv(Advance(s, i, mint), opening)
    requires d in Advance(s, i, mint).db.disputes && d !in s.db.disputes
    ensures DisputeSays(Advance(s, i, mint).db.disputes[d], jobs)
  {
    hide Inv, WorkerOk, RowsOk, Advance, Committed, Owned;
    OneWorker(s, i, opening);
    DisputesComeAtCommit(s, i, mint, d);
    CommitIsCommitted(s, i, mint);
    DisputeFiled(s.db, s.gate, s.locks, i, s.workers[i], d, jobs);
    var job := s.workers[i].job;
    assert jobs(Chargeback(job.event, job.charge, job.user, job.amount));
    AmountOfDispute(Advance(s, i, mint), d, opening);
  }

  lemma AmountOfDispute(s: State, d: string, opening: map<string, int>)
    requires Inv(s, opening) && d in s.db.disputes
    ensures s.db.disputes[d].amount > 0
  {
    hide WorkerOk;
    assert DisputeOk(s.db, s.db.disputes[d]);
  }

  lemma DisputesComeAtCommit(s: State, i: nat, mint: string, d: string)
    requires i in s.workers && d in Advance(s, i, mint).db.disputes && d !in s.db.disputes
    ensures s.workers[i].pc == Commit
  {
    hide Released, DoStart, DoCommit, Silent, CreditRow, Credit, AfterCredit, Owned;
    if !Visible(s.workers[i].pc) {
      SilentRows(s, i, mint);
    } else if s.workers[i].pc == Settle {
      SettleOwned(s, i);
    }
  }

  lemma SilentRows(s: State, i: nat, mint: string)
    requires i in s.workers && !Visible(s.workers[i].pc)
    ensures Advance(s, i, mint).db == s.db
  {
    hide Advance;
    InvisibleIsSilent(s, i, mint);
  }

  lemma RecordSays(job: Job, required: int, jobs: Job -> bool)
    requires RecordsCharge(job) && jobs(job) && (job.Confirm? ==> job.hash != "" && job.depth >= required)
    ensures ChargeSays(RecordOf(job), required, jobs)
  {
    match job
    case Approved(event, charge, user, credits, cents) => assert jobs(Approved(event, charge, user, credits, cents));
    case Confirm(hash, user, amount, depth) => assert jobs(Confirm(hash, user, amount, depth));
    case _ =>
  }

  lemma NewCharge(s: State, i: nat, mint: string, rec: ChargeRecord, jobs: Job -> bool, opening: map<string, int>)
    requires Inv(s, opening) && i in s.workers && Knows(s.db, s.required, s.workers[i]) && jobs(s.workers[i].job)
    requires rec in Advance(s, i, mint).db.charges && rec !in s.db.charges
    ensures ChargeSays(rec, s.required, jobs)
  {
    hide Inv, Advance, ChargeSays, RecordOf, RecordsCharge, OwnRefunds, OwnDisputes, OwnTxns, OwnLog, HasDispute;
    StepIsOwned(s, i, mint, opening);
    RecordSays(s.workers[i].job, s.required, jobs);
  }

  /** A delivery that commits leaves all its effects. */
  lemma CommitInEffect(db: Db, gate: Gate, locks: map<Resource, nat>, i: nat, w: Worker, required: int)
    requires WorkerOk(db, gate, locks, i, w) && w.pc == Commit && WebhookOf(w.job).Some? && Knows(db, required, w)
    requires forall d :: d in db.disputes ==> db.disputes[d].gatewayDisputeId == DisputeKey(db.disputes[d].charge)
    ensures WebhookOf(w.job).value in Committed(db, w).webhooks
    ensures InEffect(Committed(db, w), w.job, WebhookOf(w.job).value, required)
  {
    hide HoldsOk, Booked, CreditKey, LedgerKey, DisputeKey, L.HasKey, L.HasId, AbsentOk, PostOk;
    assert CallOk(db, gate, w);
    var db' := Committed(db, w);
    match w.job
    case Chargeback(_, charge, _, _) =>
      if w.linked {
        assert db'.disputes[w.disp].charge == charge;
      } else {
        var d :| d in db.disputes && db.disputes[d].gatewayDisputeId == DisputeKey(charge);
        DisputeKeysSeparate(db.disputes[d].charge, charge);
        assert db'.disputes[d].charge == charge;
      }
    case Approved(_, charge, user, credits, _) =>
      if credits.Some? {
        GrantInLog(db.purse.log, ChargeGrant(charge));
      }
      if charge != "" && user != "" { RecordInPlace(db, w); }
    case Confirm(hash, _, _, _) =>
      GrantInLog(db.purse.log, SolanaGrant(hash));
      RecordInPlace(db, w);
    case _ =>
  }

  lemma GrantInLog(log: seq<C.CreditTxn>, source: CreditSource)
    requires WroteAny(log, source)
    ensures exists t :: t in log && t.source == Some(source)
  {
    var k :| 0 <= k < |log| && log[k].source == Some(source);
    assert log[k] in log;
  }

  lemma RecordInPlace(db: Db, w: Worker)
    requires w.job.Confirm? || w.job.Approved?
    requires w.record.Some? ==> w.record.value == RecordOf(w.job)
    requires w.record.Some? || HasCharge(db.charges, RecordOf(w.job).gateway, RecordOf(w.job).txn)
    ensures exists rec :: rec in Committed(db, w).charges && rec.gateway == RecordOf(w.job).gateway && rec.txn == RecordOf(w.job).txn
  {
    var charges := Committed(db, w).charges;
    if w.record.Some? {
      assert charges[|db.charges|] == w.record.value;
      assert w.record.value in charges;
    } else {
      var k :| 0 <= k < |db.charges| && db.charges[k].gateway == RecordOf(w.job).gateway && db.charges[k].txn == RecordOf(w.job).txn;
      assert charges[k] == db.charges[k];
      assert charges[k] in charges;
    }
  }

  lemma NewDelivery(s: State, i: nat, mint: string, id: string, jobs: Job -> bool, opening: map<string, int>)
    requires Inv(s, opening) && i in s.workers && Knows(s.db, s.required, s.workers[i]) && jobs(s.workers[i].job)
    requires id in Advance(s, i, mint).db.webhooks && id !in s.db.webhooks
    ensures DeliverySays(Advance(s, i, mint).db, id, s.required, jobs)
  {
    hide Inv, WorkerOk, RowsOk, Advance, Committed, InEffect, OwnRefunds, OwnDisputes, OwnTxns, OwnLog, HasDispute;
    OneWorker(s, i, opening);
    StepIsOwned(s, i, mint, opening);
    CommitIsCommitted(s, i, mint);
    DisputeNames(s, opening);
    CommitInEffect(s.db, s.gate, s.locks, i, s.workers[i], s.required);
  }

  lemma DisputeNames(s: State, opening: map<string, int>)
    requires Inv(s, opening)
    ensures forall d :: d in s.db.disputes ==> s.db.disputes[d].gatewayDisputeId == DisputeKey(s.db.disputes[d].charge)
  {
    hide WorkerOk, DisputeKey;
    forall d | d in s.db.disputes ensures s.db.disputes[d].gatewayDisputeId == DisputeKey(s.db.disputes[d].charge) {
      assert DisputeOk(s.db, s.db.disputes[d]);
    }
  }

  // ----- Every action -----

  ghost predicate Said(s: State, jobs: Job -> bool, asked: (string, Request) -> bool) {
    && AllSaid(s.db, s.required, jobs, asked)
    && forall i :: i in s.workers ==> jobs(s.workers[i].job) && Knows(s.db, s.required, s.workers[i])
  }

  /** Old rows go on saying what they said, so only new ones matter. */
  lemma NewRowsSuffice(db: Db, db': Db, required: int, jobs: Job -> bool, asked: (string, Request) -> bool)
    requires AllSaid(db, required, jobs, asked) && Evolves(db, db')
    requires forall id :: id in db'.refunds && id !in db.refunds ==> RefundSays(db', id, db'.refunds[id], asked)
    requires forall d :: d in db'.disputes && d !in db.disputes ==> DisputeSays(db'.disputes[d], jobs)
    requires forall t :: t in db'.purse.log && t !in db.purse.log ==> CreditSays(db', required, t, jobs)
    requires forall t :: t in db'.books.txns && t !in db.books.txns ==> TxnSays(db', t, jobs)
    requires forall rec :: rec in db'.charges && rec !in db.charges ==> ChargeSays(rec, required, jobs)
    requires forall id :: id in db'.webhooks && id !in db.webhooks ==> DeliverySays(db', id, required, jobs)
    ensures AllSaid(db', required, jobs, asked)
  {
    hide Evolves, RefundSays, CreditSays, TxnSays, ChargeSays, InEffect, SameTerms;
    forall id | id in db'.refunds ensures RefundSays(db', id, db'.refunds[id], asked) {
      if id in db.refunds {
        assert SameTerms(db.refunds[id], db'.refunds[id]) by { TermsStay(db, db', id); }
        RequestStays(db, db', id, db.refunds[id], db'.refunds[id], asked);
      }
    }
    forall d | d in db'.disputes ensures DisputeSays(db'.disputes[d], jobs) {
      if d in db.disputes { DisputeStaysSame(db, db', d); }
    }
    forall t | t in db'.purse.log ensures CreditSays(db', required, t, jobs) {
      if t in db.purse.log { CreditStays(db, db', required, t, jobs); }
    }
    forall t | t in db'.books.txns ensures TxnSays(db', t, jobs) {
      if t in db.books.txns { PostingStays(db, db', t, jobs); }
    }
    forall id | id in db'.webhooks ensures DeliverySays(db', id, required, jobs) {
      if id in db.webhooks {
        var job :| jobs(job) && InEffect(db, job, id, required);
        EffectStays(db, db', job, id, required);
      }
    }
  }

  lemma TermsStay(db: Db, db': Db, id: string)
    requires Evolves(db, db') && id in db.refunds
    ensures id in db'.refunds && SameTerms(db.refunds[id], db'.refunds[id])
  {
  }

  lemma DisputeStaysSame(db: Db, db': Db, d: string)
    requires Evolves(db, db') && d in db.disputes
    ensures d in db'.disputes && SameDispute(db.disputes[d], db'.disputes[d])
  {
  }

  lemma StepSaid(s: State, i: nat, mint: string, jobs: Job -> bool, asked: (string, Request) -> bool, opening: map<string, int>)
    requires Inv(s, opening) && Said(s, jobs, asked) && i in s.workers
    ensures Said(Advance(s, i, mint), jobs, asked) && Advance(s, i, mint).required == s.required
  {
    hide Inv, Advance, AllSaid, Knows, Evolves, OwnDisputes, OwnTxns, OwnLog, OwnDelivery, RefundSays, DisputeSays, CreditSays, TxnSays, ChargeSays,
         DeliverySays;
    var e := Advance(s, i, mint);
    StepDoes(s, i, mint, opening);
    StepIsOwned(s, i, mint, opening);
    forall d | d in e.db.disputes && d !in s.db.disputes ensures DisputeSays(e.db.disputes[d], jobs) {
      NewDispute(s, i, mint, d, jobs, opening);
    }
    forall t | t in e.db.purse.log && t !in s.db.purse.log ensures CreditSays(e.db, s.required, t, jobs) {
      NewCredit(s, i, mint, t, jobs, opening);
      CreditStays(s.db, e.db, s.required, t, jobs);
    }
    forall t | t in e.db.books.txns && t !in s.db.books.txns ensures TxnSays(e.db, t, jobs) {
      NewPosting(s, i, mint, t, jobs, opening);
    }
    forall rec | rec in e.db.charges && rec !in s.db.charges ensures ChargeSays(rec, s.required, jobs) {
      NewCharge(s, i, mint, rec, jobs, opening);
    }
    forall id | id in e.db.webhooks && id !in s.db.webhooks ensures DeliverySays(e.db, id, s.required, jobs) {
      NewDelivery(s, i, mint, id, jobs, opening);
    }
    NewRowsSuffice(s.db, e.db, s.required, jobs, asked);
    forall j | j in e.workers ensures jobs(e.workers[j].job) && Knows(e.db, s.required, e.workers[j]) {
      if j == i {
        KnowsAdvance(s, i, mint, opening);
        KnowsStays(s.db, e.db, s.required, e.workers[j]);
      } else {
        KnowsStays(s.db, e.db, s.required, s.workers[j]);
      }
    }
  }

  lemma StepDoes(s: State, i: nat, mint: string, opening: map<string, int>)
    requires Inv(s, opening) && i in s.workers
    ensures Inv(Advance(s, i, mint), opening) && Evolves(s.db, Advance(s, i, mint).db) && Advance(s, i, mint).required == s.required
  {
    hide Inv, Advance, RowsOk, WorkerOk, Evolves, Guarded, OthersHold, GateGrows;
    AdvanceGood(s, i, mint, opening);
    DoGood(s, Step(i, mint), opening);
  }

  /** A call that fails, dies or is misled knows what it knew. */
  lemma SilentSaid(s: State, e: State, i: nat, jobs: Job -> bool, asked: (string, Request) -> bool)
    requires Said(s, jobs, asked) && Silent(s, e, i) && Knows(s.db, s.required, e.workers[i])
    ensures Said(e, jobs, asked)
  {
    hide AllSaid, Knows;
  }

  lemma FinishKnows(s: State, i: nat)
    requires i in s.workers
    ensures Knows(s.db, s.required, Finish(s, i, s.workers[i]).workers[i])
  {
    hide Released, HasDispute, DisputeKey;
  }

  lemma ThrowKnows(s: State, i: nat, opening: map<string, int>)
    requires Inv(s, opening) && i in s.workers && Knows(s.db, s.required, s.workers[i]) && Silent(s, Throw(s, i), i)
    ensures Knows(s.db, s.required, Throw(s, i).workers[i])
  {
    hide Inv, WorkerOk, RowsOk, Released, HasDispute, DisputeKey, Credit;
    OneWorker(s, i, opening);
    if s.workers[i].job.Chargeback? {
      ChargebackShape(s.db, s.gate, s.locks, i, s.workers[i]);
    }
  }

  lemma UnansweredKnows(s: State, i: nat)
    requires i in s.workers && Knows(s.db, s.required, s.workers[i])
    ensures Knows(s.db, s.required, Unanswered(s, i).workers[i])
  {
    hide HasDispute, DisputeKey;
  }

  lemma {:induction false} LatestIsRecorded(charges: seq<ChargeRecord>, user: string, g: G.Gateway)
    ensures LatestCharge(charges, user, g).Some? ==>
              exists rec :: rec in charges && rec.user == user && rec.gateway == g && rec.txn == LatestCharge(charges, user, g).value
  {
    if charges != [] {
      var n := |charges| - 1;
      LatestIsRecorded(charges[..n], user, g);
      MembersStay(charges[..n], charges);
      assert charges[n] in charges;
    }
  }

  lemma RequestSays(s: State, id: string, q: Request, asked: (string, Request) -> bool)
    requires asked(id, q) && Accepted(s.db, q).Some?
    ensures var db := s.db.(refunds := s.db.refunds[id := Accepted(s.db, q).value]); RefundSays(db, id, db.refunds[id], asked)
  {
    hide LatestCharge;
    if q.kind == PAYMENT {
      LatestIsRecorded(s.db.charges, q.user, q.gateway.value);
    }
  }

  lemma DoSaid(s: State, a: Action, jobs: Job -> bool, asked: (string, Request) -> bool, opening: map<string, int>)
    requires Inv(s, opening) && Said(s, jobs, asked)
    requires (a.Spawn? ==> jobs(a.job)) && (a.Create? ==> asked(a.id, a.request))
    ensures Said(Do(s, a), jobs, asked) && Do(s, a).required == s.required
  {
    hide Inv, Advance, Throw, Finish, Unanswered, Accepted, AllSaid, Knows, Evolves, GateGrows, RefundSays, DisputeSays, CreditSays, TxnSays,
         ChargeSays, DeliverySays;
    match a
    case Step(i, mint) => if i in s.workers { StepSaid(s, i, mint, jobs, asked, opening); }
    case FailCall(i) =>
      if i in s.workers {
        ThrowIsSilent(s, i);
        ThrowKnows(s, i, opening);
        SilentSaid(s, Throw(s, i), i, jobs, asked);
      }
    case LoseAnswer(i) =>
      if i in s.workers {
        UnansweredIsSilent(s, i);
        UnansweredKnows(s, i);
        SilentSaid(s, Unanswered(s, i), i, jobs, asked);
      }
    case Crash(i) =>
      if i in s.workers {
        FinishSilent(s, i);
        FinishKnows(s, i);
        SilentSaid(s, Finish(s, i, s.workers[i]), i, jobs, asked);
      }
    case Spawn(i, job) => SpawnKnows(s, job);
    case Create(id, q) => RowsSaid(s, a, jobs, asked, opening);
    case ReviewNow(_, _) => RowsSaid(s, a, jobs, asked, opening);
    case RegisterCharge(_, _, _) =>
  }

  lemma SpawnKnows(s: State, job: Job)
    ensures Knows(s.db, s.required, Begin(job))
  {
  }

  /** A request that is made, or reviewed in one action. */
  lemma RowsSaid(s: State, a: Action, jobs: Job -> bool, asked: (string, Request) -> bool, opening: map<string, int>)
    requires Inv(s, opening) && Said(s, jobs, asked) && (a.ReviewNow? || (a.Create? && asked(a.id, a.request)))
    ensures Said(Do(s, a), jobs, asked)
  {
    hide Inv, Accepted, AllSaid, Knows, Evolves, GateGrows, RefundSays, DisputeSays, CreditSays, TxnSays, ChargeSays, DeliverySays;
    var e := Do(s, a);
    DoGood(s, a, opening);
    if a.Create? && a.id !in s.db.refunds && Accepted(s.db, a.request).Some? {
      RequestSays(s, a.id, a.request, asked);
    }
    NewRowsSuffice(s.db, e.db, s.required, jobs, asked);
    forall j | j in e.workers ensures Knows(e.db, s.required, e.workers[j]) {
      KnowsStays(s.db, e.db, s.required, s.workers[j]);
    }
  }

  // ----- Every run -----

  /** The jobs that are started in the run, and the requests that are made in it. */
  ghost function StartedIn(acts: seq<Action>): Job -> bool {
    (job: Job) => exists k :: 0 <= k < |acts| && acts[k].Spawn? && acts[k].job == job
  }

  ghost function AskedIn(acts: seq<Action>): (string, Request) -> bool {
    (id: string, q: Request) => exists k :: 0 <= k < |acts| && acts[k] == Create(id, q)
  }

  lemma {:induction false} SaidSoFar(s: State, acts: seq<Action>, n: nat, opening: map<string, int>)
    requires Initial(s, opening) && n <= |acts|
    ensures Said(Run(s, acts[..n]), StartedIn(acts), AskedIn(acts)) && Run(s, acts[..n]).required == s.required
  {
    hide Inv, Do, Said;
    if n == 0 {
      NothingSaid(s, StartedIn(acts), AskedIn(acts), opening);
    } else {
      SaidSoFar(s, acts, n - 1, opening);
      Reachable(s, acts[..n - 1], opening);
      assert acts[..n][..n - 1] == acts[..n - 1];
      DoSaid(Run(s, acts[..n - 1]), acts[n - 1], StartedIn(acts), AskedIn(acts), opening);
    }
  }

  lemma NothingSaid(s: State, jobs: Job -> bool, asked: (string, Request) -> bool, opening: map<string, int>)
    requires Initial(s, opening)
    ensures Said(s, jobs, asked)
  {
  }

  /**
   * In every reachable state, whatever overlapped, failed, died or was repeated: every refund
   * request has the terms someone asked for; every dispute, credit row, ledger transaction and
   * charge record is, field by field, what the event or call it comes from says; and every
   * delivery in the table of ids was made and has all its effects.
   */
  lemma EveryRowWasAskedFor(s: State, acts: seq<Action>, opening: map<string, int>)
    requires Initial(s, opening)
    ensures AllSaid(Run(s, acts).db, s.required, StartedIn(acts), AskedIn(acts))
  {
    hide Run, Initial, AllSaid, StartedIn, AskedIn;
    SaidSoFar(s, acts, |acts|, opening);
    assert acts[..|acts|] == acts;
  }

  // ----- Read off for single promises -----

  /** What a lost dispute moves to expense is the fee of a setOutcome call that asked for LOST. */
  lemma LostFeeWasAskedFor(s: State, acts: seq<Action>, d: string, opening: map<string, int>)
    requires Initial(s, opening) && d in Run(s, acts).db.disputes
    ensures var db := Run(s, acts).db;
            var fee := MovedBy(db.books.txns, LostOf(d), L.Account("test-admin-1", L.EXPENSE));
            && MovedBy(db.books.txns, LostOf(d), L.Account(db.disputes[d].user, L.ASSET)) == -fee
            && (fee != 0 ==> fee > 0 && exists k :: 0 <= k < |acts| && acts[k].Spawn? && acts[k].job == Outcome(d, false, fee))
  {
    hide Initial, Run, RowsOk, WorkerOk, MovedBy, L.Moved;
    Reachable(s, acts, opening);
    EveryRowWasAskedFor(s, acts, opening);
    var e := Run(s, acts);
    var expense, asset := L.Account("test-admin-1", L.EXPENSE), L.Account(e.db.disputes[d].user, L.ASSET);
    if HasSource(e.db.books.txns, LostOf(d)) {
      var k :| 0 <= k < |e.db.books.txns| && e.db.books.txns[k].source == Some(LostOf(d));
      assert TxnSays(e.db, e.db.books.txns[k], StartedIn(acts));
      SourceMoves(e.db, e.gate, opening, LostOf(d), k, expense);
      SourceMoves(e.db, e.gate, opening, LostOf(d), k, asset);
      TwoMoved(e.db.books.txns[k].entries[0], e.db.books.txns[k].entries[1], expense);
      TwoMoved(e.db.books.txns[k].entries[0], e.db.books.txns[k].entries[1], asset);
    } else {
      NothingMoved(e.db.books.txns, LostOf(d), expense);
      NothingMoved(e.db.books.txns, LostOf(d), asset);
    }
  }

  /** The credits and the charge record of a hash have user and amount of confirmations of it that were deep enough. */
  lemma SolanaSettlesAsConfirmed(s: State, acts: seq<Action>, hash: string, opening: map<string, int>)
    requires Initial(s, opening)
    ensures forall t :: t in Run(s, acts).db.purse.log && t.source == Some(SolanaGrant(hash)) ==>
              && t.kind == C.PURCHASE && t.key == Some("solana_charge_" + hash) && t.amount > 0
              && exists k :: 0 <= k < |acts| && acts[k].Spawn? && acts[k].job.Confirm? && acts[k].job.depth >= s.required
                   && acts[k].job.hash == hash && acts[k].job.user == t.user && acts[k].job.amount == t.amount
    ensures forall rec :: rec in Run(s, acts).db.charges && rec.gateway == G.SOLANA && rec.txn == hash ==>
              exists k :: 0 <= k < |acts| && acts[k].Spawn? && acts[k].job.Confirm? && acts[k].job.depth >= s.required
                && acts[k].job.hash == hash && acts[k].job.user == rec.user && acts[k].job.amount == rec.amount
  {
    hide Initial, Run;
    EveryRowWasAskedFor(s, acts, opening);
    var db := Run(s, acts).db;
    forall t | t in db.purse.log && t.source == Some(SolanaGrant(hash))
      ensures t.kind == C.PURCHASE && t.key == Some("solana_charge_" + hash) && t.amount > 0
      ensures exists k :: 0 <= k < |acts| && acts[k].Spawn? && acts[k].job.Confirm? && acts[k].job.depth >= s.required
                && acts[k].job.hash == hash && acts[k].job.user == t.user && acts[k].job.amount == t.amount
    {
      assert CreditSays(db, s.required, t, StartedIn(acts));
    }
    forall rec | rec in db.charges && rec.gateway == G.SOLANA && rec.txn == hash
      ensures exists k :: 0 <= k < |acts| && acts[k].Spawn? && acts[k].job.Confirm? && acts[k].job.depth >= s.required
                && acts[k].job.hash == hash && acts[k].job.user == rec.user && acts[k].job.amount == rec.amount
    {
      assert ChargeSays(rec, s.required, StartedIn(acts));
    }
  }

  // ----- At the gateways -----

  /** A payment request that names the charge at this gateway is in the gateway's log for its full amount. */
  ghost predicate RefundNames(db: Db, gate: Gate, g: G.Gateway, txn: string) {
    exists id ::
      && id in db.refunds && db.refunds[id].kind == PAYMENT && db.refunds[id].gateway == Some(g) && db.refunds[id].charge == Some(txn)
      && "refund_" + id in gate.At(g).refundLog && gate.At(g).refundLog["refund_" + id].refundedAmount == db.refunds[id].amount
  }

  ghost predicate MarkedFor(s: State, g: G.Gateway, txn: string) {
    txn in s.gate.At(g).charges && s.gate.At(g).charges[txn].status == G.REFUNDED ==> RefundNames(s.db, s.gate, g, txn)
  }

  lemma NamesStays(s: State, e: State, g: G.Gateway, txn: string)
    requires Evolves(s.db, e.db) && GateGrows(s.gate, e.gate) && RefundNames(s.db, s.gate, g, txn)
    ensures RefundNames(e.db, e.gate, g, txn)
  {
    var id :|
      && id in s.db.refunds && s.db.refunds[id].kind == PAYMENT && s.db.refunds[id].gateway == Some(g) && s.db.refunds[id].charge == Some(txn)
      && "refund_" + id in s.gate.At(g).refundLog && s.gate.At(g).refundLog["refund_" + id].refundedAmount == s.db.refunds[id].amount;
    assert SameTerms(s.db.refunds[id], e.db.refunds[id]);
    assert "refund_" + id in e.gate.At(g).refundLog;
  }

  lemma CallMarks(s: State, i: nat, mint: string, g: G.Gateway, txn: string, opening: map<string, int>)
    requires Inv(s, opening) && i in s.workers && s.workers[i].pc == CallGateway && s.workers[i].job.Process?
    requires Inv(DoCallGateway(s, i, s.workers[i], mint), opening)
    requires s.workers[i].snap.gateway == Some(g) && s.workers[i].snap.charge == Some(txn)
    ensures RefundNames(s.db, DoCallGateway(s, i, s.workers[i], mint).gate, g, txn)
  {
    hide RowsOk, HoldsOk, AbsentOk, PostOk, Shape;
    var w := s.workers[i];
    var e := DoCallGateway(s, i, w, mint);
    assert ProcessOk(s.db, s.gate, w);
    var id := w.job.refund;
    assert e.workers[i].pc == Check;
    assert ProcessOk(e.db, e.gate, e.workers[i]);
    assert "refund_" + id == CreditKey(RefundDeduct(id));
  }

  lemma DoMarks(s: State, a: Action, g: G.Gateway, txn: string, opening: map<string, int>)
    requires Inv(s, opening) && MarkedFor(s, g, txn)
    ensures MarkedFor(Do(s, a), g, txn)
  {
    hide Inv, RefundNames, Evolves, GateGrows, Advance, Throw, Finish, Unanswered, Accepted, CreditKey, Owned;
    DoGood(s, a, opening);
    if RefundNames(s.db, s.gate, g, txn) {
      NamesStays(s, Do(s, a), g, txn);
    } else {
      match a
      case Step(i, mint) =>
        if i in s.workers {
          StepIsOwned(s, i, mint, opening);
          if s.workers[i].pc == CallGateway {
            GatewayStep(s, i, mint);
            CallKnown(s, i, opening);
            if s.workers[i].job.Process? && s.workers[i].snap.gateway == Some(g) && s.workers[i].snap.charge == Some(txn) {
              CallMarks(s, i, mint, g, txn, opening);
            }
          }
        }
      case FailCall(i) => if i in s.workers { ThrowIsSilent(s, i); }
      case LoseAnswer(i) => if i in s.workers { UnansweredIsSilent(s, i); }
      case Crash(i) => if i in s.workers { FinishSilent(s, i); }
      case _ =>
    }
  }

  lemma CallKnown(s: State, i: nat, opening: map<string, int>)
    requires Inv(s, opening) && i in s.workers && s.workers[i].pc == CallGateway
    ensures s.workers[i].job.Process?
  {
    hide RowsOk, HoldsOk, AbsentOk, PostOk, CallOk;
    assert WorkerOk(s.db, s.gate, s.locks, i, s.workers[i]);
  }

  /** A charge that was not REFUNDED at first becomes so only for a payment request that names it. */
  lemma {:induction false} OnlyNamedChargesAreRefunded(s: State, acts: seq<Action>, g: G.Gateway, txn: string, opening: map<string, int>)
    requires Initial(s, opening) && (txn in s.gate.At(g).charges ==> s.gate.At(g).charges[txn].status != G.REFUNDED)
    ensures MarkedFor(Run(s, acts), g, txn)
  {
    hide Inv, Do, RefundNames, Initial;
    if acts != [] {
      var n := |acts| - 1;
      OnlyNamedChargesAreRefunded(s, acts[..n], g, txn, opening);
      Reachable(s, acts[..n], opening);
      DoMarks(Run(s, acts[..n]), acts[n], g, txn, opening);
    }
  }
}
