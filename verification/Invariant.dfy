/**
 * What holds in every reachable state of the engine, whatever overlaps, fails or dies.
 *
 * The invariant has two halves: facts about committed rows (RowsOk), and facts about each
 * call in progress (WorkerOk). A call's facts are of three kinds: what it holds, what those
 * holdings keep out of the committed rows, and what it knows about rows already committed.
 * A step of one call cannot spoil another call's facts, because committed rows only evolve
 * (Evolves) and new ones come only from what the stepping call holds (Guarded).
 */
module Invariant {
  import opened Prelude
  import opened Keys
  import opened Engine
  import G = Gateways
  import L = Ledger
  import C = Credits

  // ----- Committed rows -----

  ghost predicate GatewayPaid(gate: Gate, r: Refund, id: string, gid: string) {
    && r.gateway.Some?
    && CreditKey(RefundDeduct(id)) in gate.At(r.gateway.value).refundLog
    && gate.At(r.gateway.value).refundLog[CreditKey(RefundDeduct(id))] == G.Refunded(gid, r.amount)
  }

  ghost predicate PaidSomehow(gate: Gate, r: Refund, id: string) {
    exists gid :: GatewayPaid(gate, r, id, gid)
  }

  ghost predicate HasSource(txns: seq<L.Txn>, source: LedgerSource) {
    exists k :: 0 <= k < |txns| && txns[k].source == Some(source)
  }

  ghost predicate Wrote(log: seq<C.CreditTxn>, source: CreditSource, user: string, amount: int) {
    exists k :: 0 <= k < |log| && log[k].source == Some(source) && log[k].user == user && log[k].amount == amount
  }

  ghost predicate WroteAny(log: seq<C.CreditTxn>, source: CreditSource) {
    exists k :: 0 <= k < |log| && log[k].source == Some(source)
  }

  ghost predicate HasDisputeOn(disputes: map<string, Dispute>, charge: string) {
    exists d :: d in disputes && disputes[d].charge == charge
  }

  /** A ledger transaction is exactly the posting of the source it names. */
  ghost predicate TxnOk(db: Db, t: L.Txn) {
    && t.source.Some? && t.key == Some(LedgerKey(t.source.value))
    && match t.source.value
       case RefundOf(id) =>
         && id in db.refunds && db.refunds[id].kind == PAYMENT && db.refunds[id].paymentRefundId.Some?
         && t.entries == ReversalLines(db.refunds[id].user, db.refunds[id].amount)
       case ReversalOf(charge) => HasDisputeOn(db.disputes, charge)
       case WonOf(d) =>
         && d in db.disputes && t.entries == WonLines(db.disputes[d].user, db.disputes[d].amount)
       case LostOf(d) =>
         && d in db.disputes && |t.entries| == 2 && t.entries[0].amount > 0
         && t.entries == FeeLines(db.disputes[d].user, t.entries[0].amount)
  }

  ghost predicate RefundOk(db: Db, gate: Gate, id: string)
    requires id in db.refunds
  {
    var r := db.refunds[id];
    && r.amount > 0 && (r.kind == PAYMENT ==> r.gateway.Some?)
    && (r.paymentRefundId.Some? ==>
          r.kind == PAYMENT && GatewayPaid(gate, r, id, r.paymentRefundId.value) && HasSource(db.books.txns, RefundOf(id)))
    && (r.status == PROCESSED ==>
          if r.kind == PAYMENT then r.paymentRefundId.Some? else Wrote(db.purse.log, RefundGrant(id), r.user, r.amount))
  }

  ghost predicate ReversedBy(txns: seq<L.Txn>, x: Dispute) {
    exists k :: 0 <= k < |txns| && Some(txns[k].id) == x.reversal && txns[k].source == Some(ReversalOf(x.charge))
                && txns[k].entries == ReversalLines(x.user, x.amount)
  }

  ghost predicate DisputeOk(db: Db, x: Dispute) {
    x.amount > 0 && x.gatewayDisputeId == DisputeKey(x.charge) && x.reversal.Some? && ReversedBy(db.books.txns, x)
  }

  ghost predicate DisputesUnique(disputes: map<string, Dispute>) {
    forall d, e :: d in disputes && e in disputes && disputes[d].gatewayDisputeId == disputes[e].gatewayDisputeId ==> d == e
  }

  /** A credit transaction is exactly the credits call of the source it names. */
  ghost predicate CreditOk(db: Db, gate: Gate, t: C.CreditTxn) {
    && t.source.Some? && t.key == Some(CreditKey(t.source.value))
    && match t.source.value
       case RefundDeduct(id) =>
         && id in db.refunds && db.refunds[id].kind == PAYMENT && PaidSomehow(gate, db.refunds[id], id)
         && t.user == db.refunds[id].user && t.amount == -db.refunds[id].amount
       case RefundGrant(id) =>
         && id in db.refunds && db.refunds[id].kind == CREDITS
         && t.user == db.refunds[id].user && t.amount == db.refunds[id].amount
       case WonGrant(d) =>
         && d in db.disputes && t.user == db.disputes[d].user && t.amount == db.disputes[d].amount
       case ChargebackDeduct(_) => t.amount < 0
       case ChargeReversal(_) => t.amount < 0
       case ChargeGrant(_) => t.amount > 0
       case SolanaGrant(_) => t.amount > 0
  }

  ghost predicate ChargesUnique(charges: seq<ChargeRecord>) {
    forall i, j :: 0 <= i < j < |charges| ==> !(charges[i].gateway == charges[j].gateway && charges[i].txn == charges[j].txn)
  }

  ghost predicate SettledOk(db: Db, h: string) {
    WroteAny(db.purse.log, SolanaGrant(h)) && HasCharge(db.charges, G.SOLANA, h)
  }

  /** Every entry in a gateway's refund log was made for one refund request, for its full amount. */
  ghost predicate EntryOk(db: Db, g: G.Gateway, key: string, entry: G.Refunded) {
    exists id ::
      && id in db.refunds && key == CreditKey(RefundDeduct(id))
      && db.refunds[id].kind == PAYMENT && db.refunds[id].gateway == Some(g) && db.refunds[id].amount == entry.refundedAmount
  }

  ghost predicate GateOk(db: Db, gate: Gate) {
    forall g: G.Gateway, key :: key in gate.At(g).refundLog ==> EntryOk(db, g, key, gate.At(g).refundLog[key])
  }

  ghost predicate RowsOk(db: Db, gate: Gate, opening: map<string, int>) {
    && GateOk(db, gate)
    && L.Sound(db.books)
    && (forall k :: 0 <= k < |db.books.txns| ==> TxnOk(db, db.books.txns[k]))
    && (forall id :: id in db.refunds ==> RefundOk(db, gate, id))
    && (forall d :: d in db.disputes ==> DisputeOk(db, db.disputes[d]))
    && DisputesUnique(db.disputes)
    && C.Sound(db.purse, opening)
    && (forall k :: 0 <= k < |db.purse.log| ==> CreditOk(db, gate, db.purse.log[k]))
    && ChargesUnique(db.charges)
    && (forall h :: h in db.webhooks && db.webhooks[h] == G.SOLANA ==> SettledOk(db, h))
  }

  // ----- Calls in progress -----

  predicate InCredit(pc: Pc) {
    pc == KeyCheck || pc == RowLock || pc == Settle
  }

  /** The statements each kind of call goes through. */
  predicate Shape(w: Worker) {
    var pc := w.pc;
    match w.job
    case Process(_) =>
      || pc == Start || pc == CallGateway || pc == Check || pc == Post || pc == Link || InCredit(pc)
      || pc == Commit || pc == Final || pc == Catch || pc == Done
    case Review(_, _) => pc == Start || pc == Write || pc == Done
    case Evidence(_) => pc == Start || pc == Write || pc == Done
    case Chargeback(_, _, _, _) =>
      || pc == Start || pc == Dedup || pc == Find || pc == Insert || pc == Check || pc == Post || pc == Link
      || InCredit(pc) || pc == Commit || pc == Done
    case Approved(_, _, _, _, _) => pc == Start || pc == Dedup || InCredit(pc) || pc == Record || pc == Commit || pc == Done
    case Refunded(_, _, _, _) => pc == Start || pc == Dedup || InCredit(pc) || pc == Commit || pc == Done
    case Other(_) => pc == Start || pc == Dedup || pc == Commit || pc == Done
    case Confirm(_, _, _, _) => pc == Start || pc == Dedup || InCredit(pc) || pc == Record || pc == Commit || pc == Done
    case Outcome(_, won, _) =>
      pc == Start || pc == Check || pc == Post || (won && InCredit(pc)) || pc == Resolve || pc == Commit || pc == Done
  }

  predicate Payment(w: Worker) {
    w.job.Process? && w.snap.kind == PAYMENT
  }

  /** The delivery's dedup row is inserted and not committed. */
  predicate Delivering(w: Worker) {
    WebhookOf(w.job).Some? && w.pc != Start && w.pc != Dedup && w.pc != Done
  }

  /** The chargeback's dispute row is inserted and not committed. */
  predicate Opening(w: Worker) {
    w.job.Chargeback? && (w.pc == Check || w.pc == Post || w.pc == Link || InCredit(w.pc) || (w.pc == Commit && w.linked))
  }

  /** The refund row carries this transaction's uncommitted paymentRefundId. */
  predicate RowUpdated(w: Worker) {
    Payment(w) && (InCredit(w.pc) || w.pc == Commit)
  }

  ghost predicate HoldsOk(locks: map<Resource, nat>, i: nat, w: Worker) {
    && (Delivering(w) ==> Holds(locks, WebhookId(WebhookOf(w.job).value), i))
    && (Opening(w) ==> Holds(locks, DisputeId(DisputeKey(w.job.charge)), i) && Holds(locks, DisputeRow(w.disp), i))
    && (w.post.Some? ==> Holds(locks, LedgerId(LedgerKey(Source(w))), i) && Holds(locks, TxnRow(w.txnId), i))
    && (RowUpdated(w) ==> Holds(locks, RefundRow(w.job.refund), i))
    && (w.pc == Settle ==> Holds(locks, CreditsRow(Credit(w).user), i))
    && (w.record.Some? ==> Holds(locks, ChargeId(RecordOf(w.job).gateway, RecordOf(w.job).txn), i))
    && (w.job.Outcome? && w.pc == Commit ==> Holds(locks, DisputeRow(w.job.dispute), i))
  }

  ghost predicate AbsentOk(db: Db, w: Worker) {
    && (Delivering(w) ==> WebhookOf(w.job).value !in db.webhooks)
    && (Opening(w) ==> w.made && w.disp !in db.disputes && !HasDispute(db.disputes, DisputeKey(w.job.charge)))
    && (w.post.Some? ==> !L.HasKey(db.books.txns, LedgerKey(Source(w))) && !L.HasId(db.books.txns, w.txnId))
    && (w.pc == Settle ==> w.bal == C.Balance(db.purse.balances, Credit(w).user))
    && (w.record.Some? ==> !HasCharge(db.charges, RecordOf(w.job).gateway, RecordOf(w.job).txn))
  }

  predicate SameTerms(r: Refund, q: Refund) {
    r.user == q.user && r.kind == q.kind && r.amount == q.amount && r.gateway == q.gateway && r.charge == q.charge
  }

  predicate SameDispute(x: Dispute, y: Dispute) {
    x.user == y.user && x.gatewayDisputeId == y.gatewayDisputeId && x.charge == y.charge && x.amount == y.amount && x.reversal == y.reversal
  }

  /** The statements after the ledger step of a call that posts. */
  predicate Posted(w: Worker) {
    && PostsLedger(w.job)
    && (w.pc == Link || InCredit(w.pc) || w.pc == Resolve || w.pc == Commit)
    && (w.job.Process? ==> w.snap.kind == PAYMENT)
    && (w.job.Chargeback? ==> Opening(w))
  }

  ghost predicate PostOk(db: Db, w: Worker) {
    && (w.post.Some? ==>
          && Posted(w) && LineAmount(w) > 0
          && w.post.value == L.Txn(w.txnId, Some(LedgerKey(Source(w))), Some(Source(w)), Lines(w)))
    && (Posted(w) ==> w.post.Some? || HasSource(db.books.txns, Source(w)))
    && (w.job.Chargeback? && w.pc == Commit && !w.linked ==> w.post.None?)
  }

  ghost predicate ProcessOk(db: Db, gate: Gate, w: Worker)
    requires w.job.Process?
  {
    var id := w.job.refund;
    && (w.pc != Start && w.pc != Done ==> id in db.refunds && SameTerms(w.snap, db.refunds[id]))
    && (w.pc == CallGateway ==> w.snap.kind == PAYMENT && w.snap.gateway.Some? && w.snap.charge.Some?)
    && (w.pc == Check || w.pc == Post || w.pc == Link || (w.snap.kind == PAYMENT && (InCredit(w.pc) || w.pc == Commit)) ==>
          w.snap.kind == PAYMENT && w.answer.refundedAmount == w.snap.amount
          && GatewayPaid(gate, w.snap, id, w.answer.gatewayRefundId))
    && (w.pc == Commit ==> w.snap.kind == PAYMENT)
    && (w.pc == Final && id in db.refunds ==>
          if w.snap.kind == PAYMENT then db.refunds[id].paymentRefundId.Some?
          else Wrote(db.purse.log, RefundGrant(id), w.snap.user, w.snap.amount))
  }

  ghost predicate CallOk(db: Db, gate: Gate, w: Worker) {
    && (w.job.Process? ==> ProcessOk(db, gate, w))
    && (w.job.Review? && w.pc == Write ==> w.job.refund in db.refunds)
    && (w.job.Evidence? && w.pc == Write ==> w.job.dispute in db.disputes)
    && (w.job.Outcome? && w.pc != Start && w.pc != Done ==>
          w.disp == w.job.dispute && w.disp in db.disputes && SameDispute(w.dis, db.disputes[w.disp].(status := w.dis.status)))
    && (Opening(w) ==> w.dis == Dispute(w.job.user, DisputeKey(w.job.charge), w.job.charge, w.job.amount, OPEN, None))
    && (w.job.Chargeback? && (InCredit(w.pc)) ==> w.linked)
    && (w.job.Chargeback? && !(InCredit(w.pc) || w.pc == Commit || w.pc == Done) ==> !w.linked)
    && (w.job.Confirm? && (w.pc == Record || w.pc == Commit) ==> WroteAny(db.purse.log, SolanaGrant(w.job.hash)))
    && (w.job.Approved? && w.job.credits.Some? && (w.pc == Record || w.pc == Commit) ==> WroteAny(db.purse.log, ChargeGrant(w.job.charge)))
    && (w.pc == RowLock || w.pc == Settle ==> Credit(w).amount > 0)
    && (w.pc == Settle && !Credit(w).grant ==> w.bal >= Credit(w).amount)
    && (w.record.Some? ==> w.pc == Commit && RecordsCharge(w.job) && w.record.value == RecordOf(w.job))
    && (RecordsCharge(w.job) && w.pc == Commit ==>
          w.record.Some? || HasCharge(db.charges, RecordOf(w.job).gateway, RecordOf(w.job).txn))
  }

  ghost predicate WorkerOk(db: Db, gate: Gate, locks: map<Resource, nat>, i: nat, w: Worker) {
    Shape(w) && HoldsOk(locks, i, w) && AbsentOk(db, w) && PostOk(db, w) && CallOk(db, gate, w)
  }

  ghost predicate Inv(s: State, opening: map<string, int>) {
    && RowsOk(s.db, s.gate, opening)
    && (forall i :: i in s.workers ==> WorkerOk(s.db, s.gate, s.locks, i, s.workers[i]))
    && (forall r :: r in s.locks ==> s.locks[r] in s.workers)
  }

  // ----- How one step changes what others rely on -----

  ghost predicate GateGrows(gate: Gate, gate': Gate) {
    forall g: G.Gateway, key :: key in gate.At(g).refundLog ==>
      key in gate'.At(g).refundLog && gate'.At(g).refundLog[key] == gate.At(g).refundLog[key]
  }

  /** Committed facts are durable: rows keep their terms, logs only grow. */
  ghost predicate Evolves(db: Db, db': Db) {
    && (forall id :: id in db.refunds ==>
          && id in db'.refunds && SameTerms(db.refunds[id], db'.refunds[id])
          && (db.refunds[id].paymentRefundId.Some? ==> db'.refunds[id].paymentRefundId == db.refunds[id].paymentRefundId))
    && (forall d :: d in db.disputes ==> d in db'.disputes && SameDispute(db.disputes[d], db'.disputes[d]))
    && db.books.txns <= db'.books.txns
    && db.purse.log <= db'.purse.log
    && db.charges <= db'.charges
    && (forall e :: e in db.webhooks ==> e in db'.webhooks && db'.webhooks[e] == db.webhooks[e])
  }

  /** Whatever is new in the committed rows, the stepping call held. */
  ghost predicate Guarded(db: Db, db': Db, locks: map<Resource, nat>, i: nat) {
    && (forall e :: e in db'.webhooks && e !in db.webhooks ==> Holds(locks, WebhookId(e), i))
    && (forall d :: d in db'.disputes && d !in db.disputes ==>
          Holds(locks, DisputeRow(d), i) && Holds(locks, DisputeId(db'.disputes[d].gatewayDisputeId), i))
    && (forall k :: |db.books.txns| <= k < |db'.books.txns| ==>
          db'.books.txns[k].key.Some? && Holds(locks, LedgerId(db'.books.txns[k].key.value), i) && Holds(locks, TxnRow(db'.books.txns[k].id), i))
    && (forall u :: C.Balance(db'.purse.balances, u) == C.Balance(db.purse.balances, u) || Holds(locks, CreditsRow(u), i))
    && (forall k :: |db.charges| <= k < |db'.charges| ==> Holds(locks, ChargeId(db'.charges[k].gateway, db'.charges[k].txn), i))
  }

  ghost predicate OthersHold(locks: map<Resource, nat>, locks': map<Resource, nat>, i: nat) {
    && (forall r :: r in locks && locks[r] != i ==> r in locks' && locks'[r] == locks[r])
    && (forall r :: r in locks' && locks'[r] != i ==> r in locks && locks[r] == locks'[r])
  }

  /** A step of call i, as the other calls see it. */
  ghost predicate Outside(s: State, s': State, i: nat) {
    && Evolves(s.db, s'.db) && Guarded(s.db, s'.db, s.locks, i)
    && GateGrows(s.gate, s'.gate) && OthersHold(s.locks, s'.locks, i)
  }

  ghost predicate StepBy(s: State, s': State, i: nat) {
    && Outside(s, s', i)
    && i in s'.workers && s'.workers == s.workers[i := s'.workers[i]]
    && s'.required == s.required
  }

  lemma BystanderHolds(locks: map<Resource, nat>, locks': map<Resource, nat>, i: nat, j: nat, w: Worker)
    requires OthersHold(locks, locks', i) && i != j
    requires HoldsOk(locks, j, w)
    ensures HoldsOk(locks', j, w)
  {
  }

  lemma BystanderAbsent(db: Db, db': Db, locks: map<Resource, nat>, i: nat, j: nat, w: Worker)
    requires Guarded(db, db', locks, i) && Evolves(db, db') && i != j
    requires HoldsOk(locks, j, w) && AbsentOk(db, w)
    ensures AbsentOk(db', w)
  {
    if w.post.Some? {
      var key := LedgerKey(Source(w));
      forall k | 0 <= k < |db'.books.txns| ensures db'.books.txns[k].key != Some(key) && db'.books.txns[k].id != w.txnId {
        if k < |db.books.txns| {
          assert db'.books.txns[k] == db.books.txns[k];
        }
      }
    }
    if Opening(w) {
      forall d | d in db'.disputes ensures d != w.disp && db'.disputes[d].gatewayDisputeId != DisputeKey(w.job.charge) {
        if d in db.disputes {
          assert SameDispute(db.disputes[d], db'.disputes[d]);
        }
      }
    }
    if w.record.Some? {
      var rec := RecordOf(w.job);
      forall k | 0 <= k < |db'.charges| ensures !(db'.charges[k].gateway == rec.gateway && db'.charges[k].txn == rec.txn) {
        if k < |db.charges| {
          assert db'.charges[k] == db.charges[k];
        }
      }
    }
  }

  lemma SourceStays(txns: seq<L.Txn>, txns': seq<L.Txn>, source: LedgerSource)
    requires txns <= txns' && HasSource(txns, source)
    ensures HasSource(txns', source)
  {
    var k :| 0 <= k < |txns| && txns[k].source == Some(source);
    assert txns'[k] == txns[k];
  }

  lemma WroteStays(log: seq<C.CreditTxn>, log': seq<C.CreditTxn>, source: CreditSource, user: string, amount: int)
    requires log <= log' && Wrote(log, source, user, amount)
    ensures Wrote(log', source, user, amount)
  {
    var k :| 0 <= k < |log| && log[k].source == Some(source) && log[k].user == user && log[k].amount == amount;
    assert log'[k] == log[k];
  }

  lemma WroteAnyStays(log: seq<C.CreditTxn>, log': seq<C.CreditTxn>, source: CreditSource)
    requires log <= log' && WroteAny(log, source)
    ensures WroteAny(log', source)
  {
    var k :| 0 <= k < |log| && log[k].source == Some(source);
    assert log'[k] == log[k];
  }

  lemma ChargeStays(charges: seq<ChargeRecord>, charges': seq<ChargeRecord>, g: G.Gateway, txn: string)
    requires charges <= charges' && HasCharge(charges, g, txn)
    ensures HasCharge(charges', g, txn)
  {
    var k :| 0 <= k < |charges| && charges[k].gateway == g && charges[k].txn == txn;
    assert charges'[k] == charges[k];
  }

  lemma PaidStays(gate: Gate, gate': Gate, r: Refund, q: Refund, id: string, gid: string)
    requires GateGrows(gate, gate') && SameTerms(r, q) && GatewayPaid(gate, r, id, gid)
    ensures GatewayPaid(gate', q, id, gid)
  {
  }

  lemma BystanderPost(db: Db, db': Db, w: Worker)
    requires Evolves(db, db') && PostOk(db, w)
    ensures PostOk(db', w)
  {
    if Posted(w) && w.post.None? {
      SourceStays(db.books.txns, db'.books.txns, Source(w));
    }
  }

  lemma BystanderProcess(db: Db, db': Db, gate: Gate, gate': Gate, w: Worker)
    requires Evolves(db, db') && GateGrows(gate, gate') && w.job.Process? && ProcessOk(db, gate, w)
    ensures ProcessOk(db', gate', w)
  {
    var id := w.job.refund;
    if w.pc == Final && w.snap.kind == CREDITS {
      WroteStays(db.purse.log, db'.purse.log, RefundGrant(id), w.snap.user, w.snap.amount);
    }
    if w.pc == Check || w.pc == Post || w.pc == Link || (w.snap.kind == PAYMENT && (InCredit(w.pc) || w.pc == Commit)) {
      PaidStays(gate, gate', w.snap, w.snap, id, w.answer.gatewayRefundId);
    }
  }

  lemma BystanderCall(db: Db, db': Db, gate: Gate, gate': Gate, w: Worker)
    requires Evolves(db, db') && GateGrows(gate, gate') && CallOk(db, gate, w)
    ensures CallOk(db', gate', w)
  {
    if w.job.Process? {
      BystanderProcess(db, db', gate, gate', w);
    }
    if w.job.Confirm? && (w.pc == Record || w.pc == Commit) {
      WroteAnyStays(db.purse.log, db'.purse.log, SolanaGrant(w.job.hash));
    }
    if w.job.Approved? && w.job.credits.Some? && (w.pc == Record || w.pc == Commit) {
      WroteAnyStays(db.purse.log, db'.purse.log, ChargeGrant(w.job.charge));
    }
    if RecordsCharge(w.job) && w.pc == Commit && w.record.None? {
      ChargeStays(db.charges, db'.charges, RecordOf(w.job).gateway, RecordOf(w.job).txn);
    }
  }

  /** A step of one call leaves every fact about every other call standing. */
  lemma Bystander(s: State, s': State, i: nat, j: nat)
    requires Outside(s, s', i) && i != j && j in s.workers && j in s'.workers && s'.workers[j] == s.workers[j]
    requires WorkerOk(s.db, s.gate, s.locks, j, s.workers[j])
    ensures WorkerOk(s'.db, s'.gate, s'.locks, j, s'.workers[j])
  {
    var w := s.workers[j];
    BystanderHolds(s.locks, s'.locks, i, j, w);
    BystanderAbsent(s.db, s'.db, s.locks, i, j, w);
    BystanderPost(s.db, s'.db, w);
    BystanderCall(s.db, s'.db, s.gate, s'.gate, w);
  }

  lemma StillOutside(db: Db, gate: Gate, locks: map<Resource, nat>, i: nat)
    ensures Evolves(db, db) && Guarded(db, db, locks, i) && GateGrows(gate, gate)
  {
  }

  lemma StepKeepsInv(s: State, s': State, i: nat, opening: map<string, int>)
    requires Inv(s, opening) && StepBy(s, s', i)
    requires RowsOk(s'.db, s'.gate, opening)
    requires WorkerOk(s'.db, s'.gate, s'.locks, i, s'.workers[i])
    requires forall r :: r in s'.locks ==> s'.locks[r] == i || (r in s.locks && s.locks[r] == s'.locks[r])
    ensures Inv(s', opening)
  {
    hide RowsOk, WorkerOk, Evolves, Guarded, GateGrows, OthersHold;
    forall j | j in s'.workers ensures WorkerOk(s'.db, s'.gate, s'.locks, j, s'.workers[j]) {
      if j != i {
        Bystander(s, s', i, j);
      }
    }
  }
}
