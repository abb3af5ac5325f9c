/** Every action keeps the invariant, and committed facts are durable over every run. */
module Machine {
  import opened Keys
  import opened Engine
  import opened Invariant
  import opened Steps
  import opened Commits
  import G = Gateways
  import L = Ledger
  import C = Credits

  // ----- Single-row updates -----

  lemma RefundRowChanged(db: Db, db': Db, gate: Gate, id: string, r: Refund, locks: map<Resource, nat>, i: nat,
      opening: map<string, int>)
    requires RowsOk(db, gate, opening)
    requires id in db.refunds && SameTerms(db.refunds[id], r) && r.paymentRefundId == db.refunds[id].paymentRefundId
    requires db' == db.(refunds := db.refunds[id := r])
    requires r.status == PROCESSED ==>
      if r.kind == PAYMENT then r.paymentRefundId.Some? else Wrote(db.purse.log, RefundGrant(id), r.user, r.amount)
    ensures Evolves(db, db') && Guarded(db, db', locks, i) && RowsOk(db', gate, opening)
  {
    hide L.Sound, C.Sound, TxnOk, DisputeOk, CreditOk, SettledOk, GateOk, DisputesUnique, ChargesUnique, Wrote,
         HasSource;
    assert RefundOk(db, gate, id);
    if r.paymentRefundId.Some? {
      PaidStays(gate, gate, db.refunds[id], r, id, r.paymentRefundId.value);
    }
    assert RefundOk(db', gate, id);
    assert NewRowsOk(db, db', gate);
    EvolvedRowsOk(db, db', gate, opening);
  }

  lemma UpdateGood(s: State, i: nat, db': Db, opening: map<string, int>)
    requires Inv(s, opening) && i in s.workers
    requires Evolves(s.db, db') && Guarded(s.db, db', s.locks, i) && RowsOk(db', s.gate, opening)
    ensures Good(s, Finish(s.(db := db'), i, s.workers[i]), i, opening)
  {
    hide RowsOk, WorkerOk, OthersHold, Evolves, Guarded, GateGrows, Good;
    var s' := Finish(s.(db := db'), i, s.workers[i]);
    ReleasedHold(s.locks, i);
    StillOutside(s.db, s.gate, s.locks, i);
    OverWorker(s'.db, s'.gate, s'.locks, i, s.workers[i]);
    StepGood(s, s', i, opening);
  }

  lemma RefundUpdateGood(s: State, i: nat, id: string, r: Refund, opening: map<string, int>)
    requires Inv(s, opening) && i in s.workers
    requires id in s.db.refunds && SameTerms(s.db.refunds[id], r) && r.paymentRefundId == s.db.refunds[id].paymentRefundId
    requires r.status == PROCESSED ==>
      if r.kind == PAYMENT then r.paymentRefundId.Some? else Wrote(s.db.purse.log, RefundGrant(id), r.user, r.amount)
    ensures Good(s, UpdateRefund(s, i, s.workers[i], id, r), i, opening)
  {
    hide RowsOk, WorkerOk, OthersHold, Evolves, Guarded, GateGrows, Good, Finish, Wrote;
    if Free(s, RefundRow(id), i) {
      var db' := s.db.(refunds := s.db.refunds[id := r]);
      RefundRowChanged(s.db, db', s.gate, id, r, s.locks, i, opening);
      UpdateGood(s, i, db', opening);
    } else {
      Stay(s, i, opening);
    }
  }

  /** A PROCESSED row stays justified when only its attempt counter moves. */
  lemma ProcessedFacts(db: Db, gate: Gate, opening: map<string, int>, id: string)
    requires RowsOk(db, gate, opening) && id in db.refunds && db.refunds[id].status == PROCESSED
    ensures var r := db.refunds[id];
            if r.kind == PAYMENT then r.paymentRefundId.Some? else Wrote(db.purse.log, RefundGrant(id), r.user, r.amount)
  {
    assert RefundOk(db, gate, id);
  }

  lemma FinalFacts(db: Db, gate: Gate, locks: map<Resource, nat>, i: nat, w: Worker)
    requires WorkerOk(db, gate, locks, i, w) && w.pc == Final && w.job.Process?
    ensures w.job.refund in db.refunds
    ensures var r := db.refunds[w.job.refund];
            if r.kind == PAYMENT then r.paymentRefundId.Some? else Wrote(db.purse.log, RefundGrant(w.job.refund), r.user, r.amount)
  {
    hide LedgerKey, CreditKey, DisputeKey, L.HasKey, L.HasId, HasDispute, HasSource, HasCharge, WroteAny, Wrote,
         HoldsOk, AbsentOk, PostOk, Shape;
    assert ProcessOk(db, gate, w);
  }

  lemma FinalGood(s: State, i: nat, opening: map<string, int>)
    requires Inv(s, opening) && i in s.workers && s.workers[i].pc == Final
    ensures Good(s, DoFinal(s, i, s.workers[i]), i, opening)
  {
    hide RowsOk, WorkerOk, Good, UpdateRefund, Wrote;
    var w := s.workers[i];
    if w.job.Process? && w.job.refund in s.db.refunds {
      FinalFacts(s.db, s.gate, s.locks, i, w);
      RefundUpdateGood(s, i, w.job.refund, s.db.refunds[w.job.refund].(status := PROCESSED), opening);
    } else {
      Stay(s, i, opening);
    }
  }

  lemma CatchGood(s: State, i: nat, opening: map<string, int>)
    requires Inv(s, opening) && i in s.workers && s.workers[i].pc == Catch
    ensures Good(s, DoCatch(s, i, s.workers[i]), i, opening)
  {
    hide RowsOk, WorkerOk, Good, UpdateRefund, Wrote;
    var w := s.workers[i];
    if w.job.Process? && w.job.refund in s.db.refunds {
      var r := s.db.refunds[w.job.refund];
      if r.status == PROCESSED {
        ProcessedFacts(s.db, s.gate, opening, w.job.refund);
      }
      RefundUpdateGood(s, i, w.job.refund, r.(attempts := r.attempts + 1), opening);
    } else {
      Stay(s, i, opening);
    }
  }

  lemma DisputeKept(db: Db, db': Db, d: string, status: DisputeStatus)
    requires d in db.disputes && db' == db.(disputes := db.disputes[d := db.disputes[d].(status := status)])
    ensures Evolves(db, db') && (DisputesUnique(db.disputes) ==> DisputesUnique(db'.disputes))
    ensures forall locks: map<Resource, nat>, i: nat :: Guarded(db, db', locks, i)
  {
  }

  lemma DisputeRowChanged(db: Db, db': Db, gate: Gate, d: string, status: DisputeStatus, locks: map<Resource, nat>,
      i: nat, opening: map<string, int>)
    requires RowsOk(db, gate, opening) && d in db.disputes
    requires db' == db.(disputes := db.disputes[d := db.disputes[d].(status := status)])
    ensures Evolves(db, db') && Guarded(db, db', locks, i) && RowsOk(db', gate, opening)
  {
    DisputeKept(db, db', d, status);
    hide L.Sound, C.Sound, TxnOk, DisputeOk, CreditOk, SettledOk, GateOk, ChargesUnique, RefundOk, DisputesUnique,
         Evolves, Guarded;
    assert NewRowsOk(db, db', gate);
    EvolvedRowsOk(db, db', gate, opening);
  }

  lemma WriteGood(s: State, i: nat, opening: map<string, int>)
    requires Inv(s, opening) && i in s.workers && s.workers[i].pc == Write
    ensures Good(s, DoWrite(s, i, s.workers[i]), i, opening)
  {
    hide RowsOk, WorkerOk, Good, UpdateRefund, Wrote, Finish, Evolves, Guarded;
    var w := s.workers[i];
    match w.job
    case Review(id, approve) =>
      if id in s.db.refunds {
        RefundUpdateGood(s, i, id, s.db.refunds[id].(status := if approve then APPROVED else DENIED), opening);
      } else {
        Stay(s, i, opening);
      }
    case Evidence(d) =>
      if d in s.db.disputes && Free(s, DisputeRow(d), i) {
        var db' := s.db.(disputes := s.db.disputes[d := s.db.disputes[d].(status := EVIDENCE_SUBMITTED)]);
        DisputeRowChanged(s.db, db', s.gate, d, EVIDENCE_SUBMITTED, s.locks, i, opening);
        UpdateGood(s, i, db', opening);
      } else {
        Stay(s, i, opening);
      }
    case _ => Stay(s, i, opening);
  }

  // ----- Calls -----

  lemma AdvanceGood(s: State, i: nat, mint: string, opening: map<string, int>)
    requires Inv(s, opening) && i in s.workers
    ensures Good(s, Advance(s, i, mint), i, opening)
  {
    hide Inv, Good, DoStart, DoCallGateway, DoDedup, DoFind, DoInsert, DoCheck, DoPost, DoLink, DoKeyCheck, DoRowLock, DoSettle,
         DoRecord, DoResolve, DoCommit, DoFinal, DoCatch, DoWrite;
    match s.workers[i].pc
    case Start => StartGood(s, i, opening);
    case CallGateway => CallGatewayGood(s, i, mint, opening);
    case Dedup => DedupGood(s, i, opening);
    case Find => FindGood(s, i, opening);
    case Insert => InsertGood(s, i, mint, opening);
    case Check => CheckGood(s, i, opening);
    case Post => PostGood(s, i, mint, opening);
    case Link => LinkGood(s, i, opening);
    case KeyCheck => KeyCheckGood(s, i, opening);
    case RowLock => RowLockGood(s, i, opening);
    case Settle => SettleGood(s, i, opening);
    case Record => RecordGood(s, i, opening);
    case Resolve => ResolveGood(s, i, opening);
    case Commit => CommitGood(s, i, opening);
    case Final => FinalGood(s, i, opening);
    case Catch => CatchGood(s, i, opening);
    case Write => WriteGood(s, i, opening);
    case Done => Stay(s, i, opening);
  }

  lemma ThrowGood(s: State, i: nat, opening: map<string, int>)
    requires Inv(s, opening) && i in s.workers
    ensures Good(s, Throw(s, i), i, opening)
  {
    hide Inv, Good, Fail, Finish, AfterCredit, Credit, CreditKnown;
    match s.workers[i].pc
    case Done => Stay(s, i, opening);
    case KeyCheck => CreditEnds(s, i, false, opening);
    case RowLock => CreditEnds(s, i, false, opening);
    case Settle => SettleThrowGood(s, i, opening);
    case Start => FinishGood(s, i, opening);
    case Final => FinishGood(s, i, opening);
    case Catch => FinishGood(s, i, opening);
    case Write => FinishGood(s, i, opening);
    case _ => FailGood(s, i, opening);
  }

  lemma UnansweredGood(s: State, i: nat, opening: map<string, int>)
    requires Inv(s, opening) && i in s.workers
    ensures Good(s, Unanswered(s, i), i, opening)
  {
    hide RowsOk, WorkerOk, OthersHold, Good, Wrote;
    var w := s.workers[i];
    if w.job.Process? && w.pc == Final && w.snap.paymentRefundId.None? {
      ReleasedHold(s.locks, i);
      CaughtFinal(s.db, s.gate, s.locks, i, w);
      LocalGood(s, Unanswered(s, i), i, opening);
    } else {
      Stay(s, i, opening);
    }
  }

  lemma CaughtFinal(db: Db, gate: Gate, locks: map<Resource, nat>, i: nat, w: Worker)
    requires WorkerOk(db, gate, locks, i, w) && w.pc == Final && w.job.Process?
    ensures WorkerOk(db, gate, locks, i, w.(pc := Catch))
  {
    hide LedgerKey, CreditKey, DisputeKey, L.HasKey, L.HasId, HasDispute, HasSource, HasCharge, WroteAny, Wrote;
  }

  // ----- Everything else -----

  /** No call is stepping, and nothing that a call could be holding is new. */
  ghost predicate Unclaimed(db: Db, db': Db) {
    && db'.webhooks == db.webhooks && db'.disputes == db.disputes && db'.books == db.books
    && db'.purse == db.purse && db'.charges == db.charges
  }

  lemma AmbientGood(s: State, s': State, opening: map<string, int>)
    requires Inv(s, opening) && s'.locks == s.locks && s'.workers == s.workers
    requires Evolves(s.db, s'.db) && GateGrows(s.gate, s'.gate) && Unclaimed(s.db, s'.db)
    requires RowsOk(s'.db, s'.gate, opening)
    ensures Inv(s', opening)
  {
    hide RowsOk, WorkerOk, Evolves, GateGrows, OthersHold;
    forall j | j in s'.workers ensures WorkerOk(s'.db, s'.gate, s'.locks, j, s'.workers[j]) {
      ReleasedHold(s.locks, j + 1);
      Bystander(s, s', j + 1, j);
    }
  }

  lemma CreateGood(s: State, id: string, q: Request, opening: map<string, int>)
    requires Inv(s, opening) && id !in s.db.refunds && Accepted(s.db, q).Some?
    ensures var s' := s.(db := s.db.(refunds := s.db.refunds[id := Accepted(s.db, q).value]));
            Inv(s', opening) && Evolves(s.db, s'.db)
  {
    hide L.Sound, C.Sound, TxnOk, DisputeOk, CreditOk, SettledOk, GateOk, DisputesUnique, ChargesUnique, Wrote,
         HasSource, WorkerOk, LatestCharge, RowsOk;
    var r := Accepted(s.db, q).value;
    var db' := s.db.(refunds := s.db.refunds[id := r]);
    assert RefundOk(db', s.gate, id);
    RowsPartsOf(s, opening);
    EvolvedRowsOk(s.db, db', s.gate, opening);
    StillOutside(s.db, s.gate, s.locks, 0);
    hide Evolves, GateGrows, Accepted;
    AmbientGood(s, s.(db := db'), opening);
  }

  lemma ReviewGood(s: State, id: string, approve: bool, opening: map<string, int>)
    requires Inv(s, opening) && id in s.db.refunds
    ensures var s' := s.(db := s.db.(refunds := s.db.refunds[id := s.db.refunds[id].(status := if approve then APPROVED else DENIED)]));
            Inv(s', opening) && Evolves(s.db, s'.db)
  {
    hide RowsOk, WorkerOk, Evolves, GateGrows, Guarded, Wrote;
    var r := s.db.refunds[id].(status := if approve then APPROVED else DENIED);
    var db' := s.db.(refunds := s.db.refunds[id := r]);
    RefundRowChanged(s.db, db', s.gate, id, r, s.locks, 0, opening);
    StillOutside(s.db, s.gate, s.locks, 0);
    AmbientGood(s, s.(db := db'), opening);
  }

  lemma RegisterGood(s: State, g: G.Gateway, txn: string, amount: int, opening: map<string, int>)
    requires Inv(s, opening)
    ensures var s' := s.(gate := s.gate.With(g, G.AfterRegister(g, s.gate.At(g), txn, amount)));
            Inv(s', opening) && GateGrows(s.gate, s'.gate)
  {
    hide RowsOk, WorkerOk, Evolves, GateOk;
    var gate' := s.gate.With(g, G.AfterRegister(g, s.gate.At(g), txn, amount));
    RowsHaveGate(s.db, s.gate, opening);
    SameLogs(s.db, s.gate, gate');
    GateRowsOk(s.db, s.gate, gate', opening);
    StillOutside(s.db, s.gate, s.locks, 0);
    AmbientGood(s, s.(gate := gate'), opening);
  }

  lemma SameLogs(db: Db, gate: Gate, gate': Gate)
    requires GateOk(db, gate) && (forall g: G.Gateway :: gate'.At(g).refundLog == gate.At(g).refundLog)
    ensures GateOk(db, gate') && GateGrows(gate, gate')
  {
    hide EntryOk;
  }

  lemma SpawnGood(s: State, i: nat, job: Job, opening: map<string, int>)
    requires Inv(s, opening) && i !in s.workers
    ensures Inv(Move(s, i, Begin(job)), opening)
  {
    hide RowsOk, WorkerOk, Evolves, GateGrows, OthersHold, Guarded;
    BeginWorker(s.db, s.gate, s.locks, i, job);
    StillOutside(s.db, s.gate, s.locks, i);
    ReleasedHold(s.locks, i);
    StepKeepsInv(s, Move(s, i, Begin(job)), i, opening);
  }

  lemma BeginWorker(db: Db, gate: Gate, locks: map<Resource, nat>, i: nat, job: Job)
    ensures WorkerOk(db, gate, locks, i, Begin(job))
  {
    hide LedgerKey, CreditKey, DisputeKey, Credit, Source, Lines, RecordOf;
  }

  /** Every action, in every state the invariant describes, keeps it and loses nothing committed. */
  lemma DoGood(s: State, a: Action, opening: map<string, int>)
    requires Inv(s, opening)
    ensures Inv(Do(s, a), opening)
    ensures Evolves(s.db, Do(s, a).db) && GateGrows(s.gate, Do(s, a).gate)
  {
    hide Inv, RowsOk, WorkerOk, Evolves, GateGrows, Guarded, OthersHold, Advance, Throw, Unanswered, Finish, Accepted;
    StillOutside(s.db, s.gate, s.locks, 0);
    match a
    case Create(id, q) =>
      if id !in s.db.refunds && Accepted(s.db, q).Some? { CreateGood(s, id, q, opening); }
    case ReviewNow(id, approve) =>
      if id in s.db.refunds { ReviewGood(s, id, approve, opening); }
    case RegisterCharge(g, txn, amount) => RegisterGood(s, g, txn, amount, opening);
    case Spawn(i, job) =>
      if i !in s.workers { SpawnGood(s, i, job, opening); }
    case Step(i, mint) =>
      if i in s.workers { AdvanceGood(s, i, mint, opening); }
    case LoseAnswer(i) =>
      if i in s.workers { UnansweredGood(s, i, opening); }
    case FailCall(i) =>
      if i in s.workers { ThrowGood(s, i, opening); }
    case Crash(i) =>
      if i in s.workers { FinishGood(s, i, opening); }
  }

  lemma InitialInv(s: State, opening: map<string, int>)
    requires Initial(s, opening)
    ensures Inv(s, opening)
  {
    hide TxnOk, RefundOk, DisputeOk, CreditOk, SettledOk, WorkerOk;
    assert C.Sound(s.db.purse, opening);
    assert L.Sound(s.db.books);
  }

  /** The invariant holds at the end of every run from an initial state. */
  lemma {:induction false} Reachable(s: State, acts: seq<Action>, opening: map<string, int>)
    requires Initial(s, opening)
    ensures Inv(Run(s, acts), opening)
  {
    hide Inv, Initial, Do;
    if acts == [] {
      InitialInv(s, opening);
    } else {
      var n := |acts| - 1;
      Reachable(s, acts[..n], opening);
      DoGood(Run(s, acts[..n]), acts[n], opening);
    }
  }

  lemma {:induction false} ReachableFrom(s: State, acts: seq<Action>, opening: map<string, int>)
    requires Inv(s, opening)
    ensures Inv(Run(s, acts), opening)
    ensures Evolves(s.db, Run(s, acts).db) && GateGrows(s.gate, Run(s, acts).gate)
  {
    hide Inv, Do, Evolves, GateGrows;
    StillOutside(s.db, s.gate, s.locks, 0);
    if acts != [] {
      var n := |acts| - 1;
      ReachableFrom(s, acts[..n], opening);
      var mid := Run(s, acts[..n]);
      DoGood(mid, acts[n], opening);
      EvolvesOn(s.db, mid.db, Run(s, acts).db);
      GrowsOn(s.gate, mid.gate, Run(s, acts).gate);
    }
  }

  lemma EvolvesOn(a: Db, b: Db, c: Db)
    requires Evolves(a, b) && Evolves(b, c)
    ensures Evolves(a, c)
  {
  }

  lemma GrowsOn(a: Gate, b: Gate, c: Gate)
    requires GateGrows(a, b) && GateGrows(b, c)
    ensures GateGrows(a, c)
  {
  }
}
