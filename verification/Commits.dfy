/** The steps that change committed rows: commits and single-row updates keep the invariant. */
module Commits {
  import opened Prelude
  import opened Keys
  import opened Engine
  import opened Invariant
  import opened Steps
  import G = Gateways
  import L = Ledger
  import C = Credits

  // ----- Old rows stay sound as the tables evolve -----

  lemma TxnStays(db: Db, db': Db, t: L.Txn)
    requires TxnOk(db, t) && Evolves(db, db')
    ensures TxnOk(db', t)
  {
    hide LedgerKey;
    match t.source.value
    case ReversalOf(charge) =>
      var d :| d in db.disputes && db.disputes[d].charge == charge;
      assert SameDispute(db.disputes[d], db'.disputes[d]);
    case RefundOf(id) => assert SameTerms(db.refunds[id], db'.refunds[id]);
    case WonOf(d) => assert SameDispute(db.disputes[d], db'.disputes[d]);
    case LostOf(d) => assert SameDispute(db.disputes[d], db'.disputes[d]);
  }

  lemma RefundStays(db: Db, db': Db, gate: Gate, id: string)
    requires id in db.refunds && RefundOk(db, gate, id) && Evolves(db, db') && db'.refunds[id] == db.refunds[id]
    ensures RefundOk(db', gate, id)
  {
    hide GatewayPaid;
    var r := db.refunds[id];
    if r.paymentRefundId.Some? {
      SourceStays(db.books.txns, db'.books.txns, RefundOf(id));
    }
    if r.status == PROCESSED && r.kind == CREDITS {
      WroteStays(db.purse.log, db'.purse.log, RefundGrant(id), r.user, r.amount);
    }
  }

  lemma DisputeStays(db: Db, db': Db, x: Dispute, y: Dispute)
    requires DisputeOk(db, x) && SameDispute(x, y) && db.books.txns <= db'.books.txns
    ensures DisputeOk(db', y)
  {
    hide DisputeKey;
    var txns := db.books.txns;
    var k :| 0 <= k < |txns| && Some(txns[k].id) == x.reversal && txns[k].source == Some(ReversalOf(x.charge))
             && txns[k].entries == ReversalLines(x.user, x.amount);
    assert db'.books.txns[k] == txns[k];
  }

  lemma SettledStays(db: Db, db': Db, h: string)
    requires SettledOk(db, h) && db.purse.log <= db'.purse.log && db.charges <= db'.charges
    ensures SettledOk(db', h)
  {
    WroteAnyStays(db.purse.log, db'.purse.log, SolanaGrant(h));
    ChargeStays(db.charges, db'.charges, G.SOLANA, h);
  }

  lemma GateStays(db: Db, db': Db, gate: Gate)
    requires GateOk(db, gate) && Evolves(db, db')
    ensures GateOk(db', gate)
  {
    hide EntryOk, Evolves;
    forall g: G.Gateway, key | key in gate.At(g).refundLog ensures EntryOk(db', g, key, gate.At(g).refundLog[key]) {
      EntryStays(db, db', g, key, gate.At(g).refundLog[key]);
    }
  }

  /** What remains to be shown of changed tables: the rows that are new or rewritten. */
  ghost predicate NewRowsOk(db: Db, db': Db, gate: Gate) {
    && (forall k :: |db.books.txns| <= k < |db'.books.txns| ==> TxnOk(db', db'.books.txns[k]))
    && (forall id :: id in db'.refunds && !(id in db.refunds && db.refunds[id] == db'.refunds[id]) ==> RefundOk(db', gate, id))
    && (forall d :: d in db'.disputes && d !in db.disputes ==> DisputeOk(db', db'.disputes[d]))
    && (forall h :: h in db'.webhooks && h !in db.webhooks && db'.webhooks[h] == G.SOLANA ==> SettledOk(db', h))
  }

  lemma EvolvedRowsOk(db: Db, db': Db, gate: Gate, opening: map<string, int>)
    requires RowsOk(db, gate, opening) && Evolves(db, db') && db'.purse == db.purse
    requires L.Sound(db'.books) && DisputesUnique(db'.disputes) && ChargesUnique(db'.charges)
    requires NewRowsOk(db, db', gate)
    ensures RowsOk(db', gate, opening)
  {
    hide L.Sound, C.Sound, TxnOk, RefundOk, DisputeOk, CreditOk, SettledOk, GateOk, DisputesUnique, ChargesUnique;
    GateStays(db, db', gate);
    forall k | 0 <= k < |db'.books.txns| ensures TxnOk(db', db'.books.txns[k]) {
      if k < |db.books.txns| {
        assert db'.books.txns[k] == db.books.txns[k];
        TxnStays(db, db', db.books.txns[k]);
      }
    }
    forall id | id in db'.refunds ensures RefundOk(db', gate, id) {
      if id in db.refunds && db.refunds[id] == db'.refunds[id] {
        RefundStays(db, db', gate, id);
      }
    }
    forall d | d in db'.disputes ensures DisputeOk(db', db'.disputes[d]) {
      if d in db.disputes {
        DisputeStays(db, db', db.disputes[d], db'.disputes[d]);
      }
    }
    forall k | 0 <= k < |db'.purse.log| ensures CreditOk(db', gate, db'.purse.log[k]) {
      StillOutside(db, gate, map[], 0);
      CreditStays(db, db', gate, gate, db.purse.log[k]);
    }
    forall h | h in db'.webhooks && db'.webhooks[h] == G.SOLANA ensures SettledOk(db', h) {
      if h in db.webhooks {
        SettledStays(db, db', h);
      }
    }
  }

  // ----- Posting -----

  lemma TwoLinesBalance(a: L.Account, b: L.Account, amount: int)
    requires amount > 0
    ensures L.Balanced([L.Entry(a, L.DEBIT, amount), L.Entry(b, L.CREDIT, amount)])
  {
    var es := [L.Entry(a, L.DEBIT, amount), L.Entry(b, L.CREDIT, amount)];
    var one := [L.Entry(a, L.DEBIT, amount)];
    assert es[..1] == one && one[..0] == [];
    assert L.Total(one, L.DEBIT) == amount && L.Total(one, L.CREDIT) == 0;
  }

  lemma LinesBalance(w: Worker)
    requires LineAmount(w) > 0
    ensures L.Balanced(Lines(w)) && |Lines(w)| == 2
  {
    hide L.Balanced;
    match w.job {
      case Process(_) => TwoLinesBalance(Revenue(), Asset(w.snap.user), w.answer.refundedAmount);
      case Chargeback(_, _, user, amount) => TwoLinesBalance(Revenue(), Asset(user), amount);
      case Outcome(_, won, fee) =>
        if won {
          TwoLinesBalance(Asset(w.dis.user), Revenue(), w.dis.amount);
        } else {
          TwoLinesBalance(Expense(), Asset(w.dis.user), fee);
        }
      case _ =>
    }
  }

  /** The uncommitted posting of a call, as it will be appended. */
  ghost predicate Postable(books: L.Books, w: Worker) {
    w.post.Some? ==>
      && LineAmount(w) > 0 && w.post.value == L.Txn(w.txnId, Some(LedgerKey(Source(w))), Some(Source(w)), Lines(w))
      && !L.HasKey(books.txns, LedgerKey(Source(w))) && !L.HasId(books.txns, w.txnId)
  }

  lemma BookedSound(books: L.Books, w: Worker)
    requires L.Sound(books) && Postable(books, w)
    ensures L.Sound(Booked(books, w))
    ensures Booked(books, w).txns == books.txns + if w.post.Some? then [w.post.value] else []
  {
    hide L.Sound, L.Balanced, LedgerKey, L.HasKey, L.HasId, Source;
    var b1 := L.Ensure(books, Lines(w)[0].account);
    var b2 := L.Ensure(b1, Lines(w)[1].account);
    L.EnsureSound(books, Lines(w)[0].account);
    L.EnsureSound(b1, Lines(w)[1].account);
    if w.post.Some? {
      LinesBalance(w);
      assert L.Known(b2.balances, Lines(w));
      L.AppendSound(b2, w.post.value);
    }
  }

  lemma PostableWorker(db: Db, gate: Gate, locks: map<Resource, nat>, i: nat, w: Worker)
    requires WorkerOk(db, gate, locks, i, w)
    ensures Postable(db.books, w)
    ensures w.post.Some? ==> Holds(locks, LedgerId(LedgerKey(Source(w))), i) && Holds(locks, TxnRow(w.txnId), i)
  {
    hide LedgerKey, CreditKey, DisputeKey, L.HasKey, L.HasId, HasDispute, HasSource, ProcessOk, HasCharge, Wrote,
         WroteAny, Lines, Source, Shape;
  }

  /** After a commit the call holds nothing and has nothing left to write. */
  lemma AfterCommitWorker(db: Db, gate: Gate, locks: map<Resource, nat>, i: nat, w: Worker)
    requires w.job.Process? ==>
      && w.job.refund in db.refunds && SameTerms(w.snap, db.refunds[w.job.refund])
      && w.snap.kind == PAYMENT && db.refunds[w.job.refund].paymentRefundId.Some?
    ensures WorkerOk(db, gate, locks, i, w.(pc := if w.job.Process? then Final else Done, post := None, record := None))
  {
    hide LedgerKey, CreditKey, DisputeKey, Credit, Source, Lines, RecordOf;
  }

  lemma CommitGoodFrom(s: State, i: nat, opening: map<string, int>)
    requires Inv(s, opening) && i in s.workers && s.workers[i].pc == Commit
    requires var db' := Committed(s.db, s.workers[i]);
             && Evolves(s.db, db') && Guarded(s.db, db', s.locks, i) && RowsOk(db', s.gate, opening)
             && (s.workers[i].job.Process? ==>
                  var id := s.workers[i].job.refund;
                  && id in db'.refunds && SameTerms(s.workers[i].snap, db'.refunds[id])
                  && s.workers[i].snap.kind == PAYMENT && db'.refunds[id].paymentRefundId.Some?)
    ensures Good(s, DoCommit(s, i, s.workers[i]), i, opening)
  {
    hide RowsOk, WorkerOk, OthersHold, Evolves, Guarded, GateGrows, Good, Committed, SameTerms;
    var w := s.workers[i];
    var s' := DoCommit(s, i, w);
    AfterCommitWorker(s'.db, s.gate, s'.locks, i, w);
    ReleasedHold(s.locks, i);
    StillOutside(s.db, s.gate, s.locks, i);
    StepGood(s, s', i, opening);
  }

  // ----- Commit of a payment refund -----

  lemma CommitProcessFacts(db: Db, gate: Gate, locks: map<Resource, nat>, i: nat, w: Worker)
    requires WorkerOk(db, gate, locks, i, w) && w.pc == Commit && w.job.Process?
    ensures w.job.refund in db.refunds && SameTerms(w.snap, db.refunds[w.job.refund]) && w.snap.kind == PAYMENT
    ensures w.answer.refundedAmount == w.snap.amount && GatewayPaid(gate, w.snap, w.job.refund, w.answer.gatewayRefundId)
    ensures w.post.Some? || HasSource(db.books.txns, RefundOf(w.job.refund))
  {
    hide LedgerKey, CreditKey, DisputeKey, L.HasKey, L.HasId, HasDispute, HasSource, GatewayPaid, HasCharge, Wrote,
         WroteAny, Lines, Holds, HoldsOk, AbsentOk, Shape, Credit;
    assert ProcessOk(db, gate, w);
    assert Posted(w);
  }

  lemma CommitProcessEvolves(db: Db, db': Db, gate: Gate, locks: map<Resource, nat>, i: nat, w: Worker)
    requires w.job.Process? && w.job.refund in db.refunds && RefundOk(db, gate, w.job.refund)
    requires SameTerms(w.snap, db.refunds[w.job.refund]) && GatewayPaid(gate, w.snap, w.job.refund, w.answer.gatewayRefundId)
    requires db' == Committed(db, w) && Booked(db.books, w).txns == db.books.txns + if w.post.Some? then [w.post.value] else []
    requires Postable(db.books, w)
    requires w.post.Some? ==> Holds(locks, LedgerId(LedgerKey(Source(w))), i) && Holds(locks, TxnRow(w.txnId), i)
    ensures Evolves(db, db') && Guarded(db, db', locks, i)
  {
    hide LedgerKey, CreditKey, Booked, Lines, L.HasKey, L.HasId;
    assert db'.books.txns == db.books.txns + if w.post.Some? then [w.post.value] else [];
  }

  lemma CommitProcessRows(db: Db, db': Db, gate: Gate, w: Worker)
    requires w.job.Process? && w.job.refund in db.refunds && RefundOk(db, gate, w.job.refund)
    requires SameTerms(w.snap, db.refunds[w.job.refund]) && GatewayPaid(gate, w.snap, w.job.refund, w.answer.gatewayRefundId)
    requires w.snap.kind == PAYMENT && w.answer.refundedAmount == w.snap.amount
    requires w.post.Some? || HasSource(db.books.txns, RefundOf(w.job.refund))
    requires db' == Committed(db, w) && Booked(db.books, w).txns == db.books.txns + if w.post.Some? then [w.post.value] else []
    requires Postable(db.books, w) && Evolves(db, db')
    ensures NewRowsOk(db, db', gate)
  {
    hide LedgerKey, CreditKey, Booked, L.HasKey, L.HasId, Evolves;
    var id := w.job.refund;
    if w.post.Some? {
      assert db'.books.txns[|db.books.txns|].source == Some(RefundOf(id));
    } else {
      assert db'.books.txns == db.books.txns;
    }
    PaidStays(gate, gate, w.snap, db'.refunds[id], id, w.answer.gatewayRefundId);
    assert RefundOk(db', gate, id);
  }

  lemma CommitProcessGood(s: State, i: nat, opening: map<string, int>)
    requires Inv(s, opening) && i in s.workers && s.workers[i].pc == Commit && s.workers[i].job.Process?
    ensures Good(s, DoCommit(s, i, s.workers[i]), i, opening)
  {
    var w := s.workers[i];
    var id := w.job.refund;
    var db' := Committed(s.db, w);
    assert WorkerOk(s.db, s.gate, s.locks, i, w);
    assert id in s.db.refunds ==> RefundOk(s.db, s.gate, id);
    hide RowsOk, WorkerOk, OthersHold, Evolves, Guarded, GateGrows, Good, RefundOk, GatewayPaid, HasSource, Booked, LedgerKey,
         Lines, Postable, L.Sound, DisputesUnique, ChargesUnique, NewRowsOk, Inv;
    CommitProcessFacts(s.db, s.gate, s.locks, i, w);
    RowsPartsOf(s, opening);
    PostableWorker(s.db, s.gate, s.locks, i, w);
    BookedSound(s.db.books, w);
    CommitProcessEvolves(s.db, db', s.gate, s.locks, i, w);
    CommitProcessRows(s.db, db', s.gate, w);
    EvolvedRowsOk(s.db, db', s.gate, opening);
    CommitGoodFrom(s, i, opening);
  }

  lemma RowsPartsOf(s: State, opening: map<string, int>)
    requires Inv(s, opening)
    ensures RowsOk(s.db, s.gate, opening)
    ensures L.Sound(s.db.books) && DisputesUnique(s.db.disputes) && ChargesUnique(s.db.charges)
  {
    hide L.Sound, C.Sound, TxnOk, RefundOk, DisputeOk, CreditOk, SettledOk, GateOk, DisputesUnique, ChargesUnique;
  }

  // ----- Commit of a chargeback -----

  lemma CommitOpeningFacts(db: Db, gate: Gate, locks: map<Resource, nat>, i: nat, w: Worker)
    requires WorkerOk(db, gate, locks, i, w) && w.pc == Commit && w.job.Chargeback?
    ensures Holds(locks, WebhookId(w.job.event), i)
    ensures !w.linked ==> w.post.None?
    ensures w.linked ==>
      && Holds(locks, DisputeId(DisputeKey(w.job.charge)), i) && Holds(locks, DisputeRow(w.disp), i)
      && w.disp !in db.disputes && !HasDispute(db.disputes, DisputeKey(w.job.charge))
      && w.dis == Dispute(w.job.user, DisputeKey(w.job.charge), w.job.charge, w.job.amount, OPEN, None)
      && (w.post.Some? || HasSource(db.books.txns, ReversalOf(w.job.charge)))
  {
    hide LedgerKey, CreditKey, DisputeKey, L.HasKey, L.HasId, HasDispute, HasSource, ProcessOk, HasCharge, Wrote,
         WroteAny, Lines, Shape, Credit;
  }

  lemma CommitChargebackEvolves(db: Db, db': Db, locks: map<Resource, nat>, i: nat, w: Worker)
    requires w.job.Chargeback? && Postable(db.books, w)
    requires Holds(locks, WebhookId(w.job.event), i) && w.job.event !in db.webhooks
    requires !w.linked ==> w.post.None?
    requires w.linked ==>
      && Holds(locks, DisputeId(w.dis.gatewayDisputeId), i) && Holds(locks, DisputeRow(w.disp), i) && w.disp !in db.disputes
    requires db' == Committed(db, w) && Booked(db.books, w).txns == db.books.txns + if w.post.Some? then [w.post.value] else []
    requires w.post.Some? ==> Holds(locks, LedgerId(LedgerKey(Source(w))), i) && Holds(locks, TxnRow(w.txnId), i)
    ensures Evolves(db, db') && Guarded(db, db', locks, i)
  {
    hide LedgerKey, CreditKey, DisputeKey, Booked, Lines, L.HasKey, L.HasId;
    assert db'.books.txns == db.books.txns + if w.post.Some? then [w.post.value] else [];
  }

  lemma CommitChargebackRows(db: Db, db': Db, gate: Gate, w: Worker)
    requires w.job.Chargeback? && w.linked && w.post.Some? && Postable(db.books, w)
    requires w.disp !in db.disputes && DisputesUnique(db.disputes) && !HasDispute(db.disputes, DisputeKey(w.job.charge))
    requires w.dis == Dispute(w.job.user, DisputeKey(w.job.charge), w.job.charge, w.job.amount, OPEN, None)
    requires db' == Committed(db, w) && Booked(db.books, w).txns == db.books.txns + [w.post.value]
    ensures NewRowsOk(db, db', gate) && DisputesUnique(db'.disputes)
  {
    hide LedgerKey, CreditKey, DisputeKey, Booked, L.HasKey, L.HasId;
    var k := |db.books.txns|;
    assert db'.books.txns[k] == w.post.value;
    assert db'.disputes[w.disp].charge == w.job.charge;
    assert ReversedBy(db'.books.txns, db'.disputes[w.disp]);
  }

  lemma WebhookFree(db: Db, gate: Gate, locks: map<Resource, nat>, i: nat, w: Worker)
    requires WorkerOk(db, gate, locks, i, w) && w.pc == Commit && WebhookOf(w.job).Some?
    ensures WebhookOf(w.job).value !in db.webhooks && Holds(locks, WebhookId(WebhookOf(w.job).value), i)
  {
    hide LedgerKey, CreditKey, DisputeKey, L.HasKey, L.HasId, HasDispute, PostOk, CallOk, Shape;
  }

  lemma CommitChargebackGood(s: State, i: nat, opening: map<string, int>)
    requires Inv(s, opening) && i in s.workers && s.workers[i].pc == Commit && s.workers[i].job.Chargeback?
    ensures Good(s, DoCommit(s, i, s.workers[i]), i, opening)
  {
    var w := s.workers[i];
    var db' := Committed(s.db, w);
    assert WorkerOk(s.db, s.gate, s.locks, i, w);
    hide RowsOk, WorkerOk, OthersHold, Evolves, Guarded, GateGrows, Good, RefundOk, GatewayPaid, HasSource, Booked, LedgerKey, DisputeKey, HasDispute,
         Lines, Postable, L.Sound, DisputesUnique, ChargesUnique, NewRowsOk, Inv;
    RowsPartsOf(s, opening);
    CommitOpeningFacts(s.db, s.gate, s.locks, i, w);
    WebhookFree(s.db, s.gate, s.locks, i, w);
    PostableWorker(s.db, s.gate, s.locks, i, w);
    BookedSound(s.db.books, w);
    CommitChargebackEvolves(s.db, db', s.locks, i, w);
    if w.linked {
      OpeningHasNoReversal(s.db, s.gate, opening, w);
      CommitChargebackRows(s.db, db', s.gate, w);
    } else {
      NothingNew(s.db, db', s.gate);
    }
    EvolvedRowsOk(s.db, db', s.gate, opening);
    CommitGoodFrom(s, i, opening);
  }

  lemma NothingNew(db: Db, db': Db, gate: Gate)
    requires db' == db.(webhooks := db'.webhooks)
    requires forall h :: h in db'.webhooks && h !in db.webhooks ==> db'.webhooks[h] != G.SOLANA
    ensures NewRowsOk(db, db', gate)
  {
  }

  // ----- Commit of an outcome -----

  lemma CommitOutcomeFacts(db: Db, gate: Gate, locks: map<Resource, nat>, i: nat, w: Worker)
    requires WorkerOk(db, gate, locks, i, w) && w.pc == Commit && w.job.Outcome?
    ensures w.job.dispute in db.disputes
    ensures w.dis.user == db.disputes[w.job.dispute].user && w.dis.amount == db.disputes[w.job.dispute].amount
  {
    hide LedgerKey, CreditKey, DisputeKey, L.HasKey, L.HasId, HasDispute, HasSource, ProcessOk, HasCharge, Wrote,
         WroteAny, Lines, Shape, Credit;
  }

  lemma CommitOutcomeEvolves(db: Db, db': Db, gate: Gate, locks: map<Resource, nat>, i: nat, w: Worker)
    requires w.job.Outcome? && Postable(db.books, w) && w.job.dispute in db.disputes
    requires w.dis.user == db.disputes[w.job.dispute].user && w.dis.amount == db.disputes[w.job.dispute].amount
    requires db' == Committed(db, w) && Booked(db.books, w).txns == db.books.txns + if w.post.Some? then [w.post.value] else []
    requires w.post.Some? ==> Holds(locks, LedgerId(LedgerKey(Source(w))), i) && Holds(locks, TxnRow(w.txnId), i)
    ensures Evolves(db, db') && Guarded(db, db', locks, i) && NewRowsOk(db, db', gate)
    ensures db'.purse == db.purse && db'.charges == db.charges && db'.books == Booked(db.books, w)
  {
    hide LedgerKey, CreditKey, DisputeKey, Booked, L.HasKey, L.HasId;
    assert db'.books.txns == db.books.txns + if w.post.Some? then [w.post.value] else [];
    if w.post.Some? {
      assert db'.books.txns[|db.books.txns|] == w.post.value;
      assert TxnOk(db', w.post.value);
    }
  }

  lemma OutcomeKeepsUnique(db: Db, db': Db, w: Worker)
    requires w.job.Outcome? && db' == Committed(db, w) && DisputesUnique(db.disputes)
    ensures DisputesUnique(db'.disputes)
  {
    hide Booked;
  }

  lemma CommitOutcomeGood(s: State, i: nat, opening: map<string, int>)
    requires Inv(s, opening) && i in s.workers && s.workers[i].pc == Commit && s.workers[i].job.Outcome?
    ensures Good(s, DoCommit(s, i, s.workers[i]), i, opening)
  {
    var w := s.workers[i];
    var db' := Committed(s.db, w);
    assert WorkerOk(s.db, s.gate, s.locks, i, w);
    hide RowsOk, WorkerOk, OthersHold, Evolves, Guarded, GateGrows, Good, RefundOk, Booked, LedgerKey,
         Lines, Postable, L.Sound, DisputesUnique, ChargesUnique, NewRowsOk, Inv, DoCommit, Committed;
    RowsPartsOf(s, opening);
    CommitOutcomeFacts(s.db, s.gate, s.locks, i, w);
    PostableWorker(s.db, s.gate, s.locks, i, w);
    BookedSound(s.db.books, w);
    CommitOutcomeEvolves(s.db, db', s.gate, s.locks, i, w);
    OutcomeKeepsUnique(s.db, db', w);
    EvolvedRowsOk(s.db, db', s.gate, opening);
    CommitGoodFrom(s, i, opening);
  }

  // ----- Commit of a charge delivery -----

  lemma CommitRecordFacts(db: Db, gate: Gate, locks: map<Resource, nat>, i: nat, w: Worker)
    requires WorkerOk(db, gate, locks, i, w) && w.pc == Commit
    ensures w.record.Some? ==>
      && w.record.value == RecordOf(w.job) && RecordsCharge(w.job)
      && Holds(locks, ChargeId(w.record.value.gateway, w.record.value.txn), i)
      && !HasCharge(db.charges, w.record.value.gateway, w.record.value.txn)
    ensures w.job.Confirm? ==>
      && WroteAny(db.purse.log, SolanaGrant(w.job.hash))
      && (w.record.Some? || HasCharge(db.charges, G.SOLANA, w.job.hash))
  {
    hide LedgerKey, CreditKey, DisputeKey, L.HasKey, L.HasId, HasDispute, HasSource, ProcessOk, HasCharge, Wrote,
         WroteAny, Lines, Shape, Credit;
  }

  lemma CommitDeliveryEvolves(db: Db, db': Db, gate: Gate, locks: map<Resource, nat>, i: nat, w: Worker)
    requires w.job.Approved? || w.job.Refunded? || w.job.Other? || w.job.Confirm?
    requires db' == Committed(db, w)
    requires WebhookOf(w.job).value !in db.webhooks && Holds(locks, WebhookId(WebhookOf(w.job).value), i)
    requires w.record.Some? ==>
      && w.record.value == RecordOf(w.job) && RecordsCharge(w.job)
      && Holds(locks, ChargeId(w.record.value.gateway, w.record.value.txn), i)
      && !HasCharge(db.charges, w.record.value.gateway, w.record.value.txn)
    requires w.job.Confirm? ==>
      && WroteAny(db.purse.log, SolanaGrant(w.job.hash))
      && (w.record.Some? || HasCharge(db.charges, G.SOLANA, w.job.hash))
    requires ChargesUnique(db.charges)
    ensures Evolves(db, db') && Guarded(db, db', locks, i) && NewRowsOk(db, db', gate) && ChargesUnique(db'.charges)
  {
    hide LedgerKey, CreditKey, DisputeKey, Booked, L.HasKey, L.HasId, WroteAny;
    if w.job.Confirm? {
      if w.record.Some? {
        assert db'.charges[|db.charges|] == w.record.value;
      } else {
        assert db'.charges == db.charges;
      }
      assert HasCharge(db'.charges, G.SOLANA, w.job.hash);
    }
  }

  lemma CommitDeliveryGood(s: State, i: nat, opening: map<string, int>)
    requires Inv(s, opening) && i in s.workers && s.workers[i].pc == Commit
    requires var job := s.workers[i].job; job.Approved? || job.Refunded? || job.Other? || job.Confirm?
    ensures Good(s, DoCommit(s, i, s.workers[i]), i, opening)
  {
    var w := s.workers[i];
    var db' := Committed(s.db, w);
    assert WorkerOk(s.db, s.gate, s.locks, i, w);
    hide RowsOk, WorkerOk, OthersHold, Evolves, Guarded, GateGrows, Good, RefundOk, Booked, LedgerKey,
         Lines, Postable, L.Sound, DisputesUnique, ChargesUnique, NewRowsOk, Inv, HasCharge, WroteAny, RecordOf, RecordsCharge;
    RowsPartsOf(s, opening);
    CommitRecordFacts(s.db, s.gate, s.locks, i, w);
    WebhookFree(s.db, s.gate, s.locks, i, w);
    CommitDeliveryEvolves(s.db, db', s.gate, s.locks, i, w);
    EvolvedRowsOk(s.db, db', s.gate, opening);
    CommitGoodFrom(s, i, opening);
  }

  lemma CommitGood(s: State, i: nat, opening: map<string, int>)
    requires Inv(s, opening) && i in s.workers && s.workers[i].pc == Commit
    ensures Good(s, DoCommit(s, i, s.workers[i]), i, opening)
  {
    var w := s.workers[i];
    assert WorkerOk(s.db, s.gate, s.locks, i, w);
    assert Shape(w);
    hide Inv, Good, DoCommit;
    match w.job
    case Process(_) => CommitProcessGood(s, i, opening);
    case Chargeback(_, _, _, _) => CommitChargebackGood(s, i, opening);
    case Outcome(_, _, _) => CommitOutcomeGood(s, i, opening);
    case _ => CommitDeliveryGood(s, i, opening);
  }
}
