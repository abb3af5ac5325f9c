/**
 * Reviews of refund requests, and when they mean what they say.
 *
 * Approve and deny read a row and write it later; `ReviewNow` is the pair with nothing in
 * between, and the jobs `Review` are the pair split in two. A split review is in time if the
 * row it writes is still PENDING, or has been given the same decision meanwhile. Everything
 * here is about runs in which the reviews of one request are in time.
 */
module Reviews {
  import opened Prelude
  import opened Keys
  import opened Engine
  import opened Invariant
  import opened Machine
  import opened Theorems
  import opened Effects
  import G = Gateways
  import L = Ledger
  import C = Credits

  predicate NotReview(job: Job) {
    !job.Review?
  }

  function RefundKey(id: string): string {
    CreditKey(RefundDeduct(id))
  }

  /** Nothing anywhere was done for this request. */
  ghost predicate Untouched(db: Db, gate: Gate, id: string) {
    && (id in db.refunds ==> db.refunds[id].paymentRefundId.None?)
    && (forall g: G.Gateway :: RefundKey(id) !in gate.At(g).refundLog)
    && !HasSource(db.books.txns, RefundOf(id))
    && !WroteAny(db.purse.log, RefundDeduct(id)) && !WroteAny(db.purse.log, RefundGrant(id))
  }

  /** No call is working on it past its status check. */
  ghost predicate Idle(workers: map<nat, Worker>, id: string) {
    forall i :: i in workers && workers[i].job == Process(id) ==> workers[i].pc == Start || workers[i].pc == Done
  }

  predicate Undecided(r: Refund) {
    r.status == PENDING || r.status == DENIED
  }

  /** A request that is not approved has had no effect, and no call is past its status check. */
  ghost predicate Quiet(s: State, id: string) {
    id in s.db.refunds && Undecided(s.db.refunds[id]) ==> Untouched(s.db, s.gate, id) && Idle(s.workers, id)
  }

  predicate Writing(s: State, a: Action, id: string) {
    && a.Step? && a.worker in s.workers && s.workers[a.worker].pc == Write && s.workers[a.worker].job.Review?
    && s.workers[a.worker].job.refund == id && id in s.db.refunds && Free(s, RefundRow(id), a.worker)
  }

  function Decision(approve: bool): RefundStatus {
    if approve then APPROVED else DENIED
  }

  /** A review that writes now finds its row PENDING, or decided as it is going to decide. */
  predicate InTime(s: State, a: Action, id: string) {
    Writing(s, a, id) ==>
      s.db.refunds[id].status == PENDING || s.db.refunds[id].status == Decision(s.workers[a.worker].job.approve)
  }

  /** Every review of the request is in time, all through the run. */
  ghost predicate Timely(s: State, acts: seq<Action>, id: string) {
    forall n :: 0 <= n < |acts| ==> InTime(Run(s, acts[..n]), acts[n], id)
  }

  // ----- One action -----

  lemma UnknownIsUntouched(db: Db, gate: Gate, opening: map<string, int>, id: string)
    requires RowsOk(db, gate, opening) && id !in db.refunds
    ensures Untouched(db, gate, id)
  {
    hide LedgerKey, L.Sound, C.Sound, CreditKey;
    forall g: G.Gateway ensures RefundKey(id) !in gate.At(g).refundLog {
      if RefundKey(id) in gate.At(g).refundLog {
        assert EntryOk(db, g, RefundKey(id), gate.At(g).refundLog[RefundKey(id)]);
        var other :| other in db.refunds && RefundKey(id) == CreditKey(RefundDeduct(other));
        CreditKeysSeparate(RefundDeduct(id), RefundDeduct(other));
      }
    }
    forall k | 0 <= k < |db.books.txns| ensures db.books.txns[k].source != Some(RefundOf(id)) {
      assert TxnOk(db, db.books.txns[k]);
    }
    forall k | 0 <= k < |db.purse.log| ensures db.purse.log[k].source != Some(RefundDeduct(id)) && db.purse.log[k].source != Some(RefundGrant(id)) {
      assert CreditOk(db, gate, db.purse.log[k]);
    }
  }

  lemma UnknownIsIdle(db: Db, gate: Gate, locks: map<Resource, nat>, i: nat, w: Worker, id: string)
    requires WorkerOk(db, gate, locks, i, w) && w.job == Process(id) && id !in db.refunds
    ensures w.pc == Start || w.pc == Done
  {
    hide Shape, HoldsOk, AbsentOk, PostOk, LedgerKey, CreditKey, DisputeKey;
    assert ProcessOk(db, gate, w);
  }

  /** The credits source and ledger source of a call on another job are not this request's. */
  lemma OtherSources(db: Db, gate: Gate, locks: map<Resource, nat>, i: nat, w: Worker, id: string)
    requires WorkerOk(db, gate, locks, i, w) && w.job != Process(id)
    ensures w.pc == Settle ==> CreditRow(w).source != Some(RefundDeduct(id)) && CreditRow(w).source != Some(RefundGrant(id))
    ensures PostsLedger(w.job) ==> Source(w) != RefundOf(id)
  {
    hide WorkerOk, CreditKey;
    if w.pc == Settle {
      CreditCaller(db, gate, locks, i, w);
    }
  }

  lemma AppendedLog(log: seq<C.CreditTxn>, t: C.CreditTxn, source: CreditSource)
    ensures WroteAny(log + [t], source) <==> WroteAny(log, source) || t.source == Some(source)
  {
    var n := |log|;
    if t.source == Some(source) {
      assert (log + [t])[n].source == Some(source);
    }
    if WroteAny(log, source) {
      WroteAnyStays(log, log + [t], source);
    }
    if WroteAny(log + [t], source) && t.source != Some(source) {
      var k :| 0 <= k < |log + [t]| && (log + [t])[k].source == Some(source);
      assert log[k].source == Some(source);
    }
  }

  lemma AppendedTxns(txns: seq<L.Txn>, t: L.Txn, source: LedgerSource)
    ensures HasSource(txns + [t], source) <==> HasSource(txns, source) || t.source == Some(source)
  {
    var n := |txns|;
    if t.source == Some(source) {
      assert (txns + [t])[n].source == Some(source);
    }
    if HasSource(txns, source) {
      SourceStays(txns, txns + [t], source);
    }
    if HasSource(txns + [t], source) && t.source != Some(source) {
      var k :| 0 <= k < |txns + [t]| && (txns + [t])[k].source == Some(source);
      assert txns[k].source == Some(source);
    }
  }

  lemma GatewayStepKeepsOthers(s: State, i: nat, mint: string, id: string, g: G.Gateway)
    requires i in s.workers && s.workers[i].pc == CallGateway && s.workers[i].job.Process? && s.workers[i].job.refund != id
    ensures RefundKey(id) in DoCallGateway(s, i, s.workers[i], mint).gate.At(g).refundLog <==> RefundKey(id) in s.gate.At(g).refundLog
    ensures RefundKey(id) in s.gate.At(g).refundLog ==>
              DoCallGateway(s, i, s.workers[i], mint).gate.At(g).refundLog[RefundKey(id)] == s.gate.At(g).refundLog[RefundKey(id)]
  {
    hide CreditKey;
    CreditKeysSeparate(RefundDeduct(id), RefundDeduct(s.workers[i].job.refund));
  }

  /** A step of a call on some other job leaves everything about this request as it was. */
  lemma OthersLeaveItAlone(s: State, i: nat, mint: string, id: string, opening: map<string, int>)
    requires Inv(s, opening) && i in s.workers && RefundOfJob(s.workers[i].job) != Some(id)
    requires id in s.db.refunds
    ensures var s' := Advance(s, i, mint);
            && s'.db.refunds.Keys == s.db.refunds.Keys && s'.db.refunds[id] == s.db.refunds[id]
            && (forall g: G.Gateway :: RefundKey(id) in s'.gate.At(g).refundLog <==> RefundKey(id) in s.gate.At(g).refundLog)
            && (forall g: G.Gateway :: RefundKey(id) in s.gate.At(g).refundLog ==>
                  s'.gate.At(g).refundLog[RefundKey(id)] == s.gate.At(g).refundLog[RefundKey(id)])
            && (Untouched(s.db, s.gate, id) ==> Untouched(s'.db, s'.gate, id))
            && (Idle(s.workers, id) ==> Idle(s'.workers, id))
  {
    hide Inv, Advance, WroteAny, HasSource, CreditKey, CreditRow, Source, RefundKey, OwnDisputes, OwnDelivery;
    var w := s.workers[i];
    var s' := Advance(s, i, mint);
    StepIsOwned(s, i, mint, opening);
    OneWorker(s, i, opening);
    OtherSources(s.db, s.gate, s.locks, i, w, id);
    if s'.gate != s.gate {
      forall g: G.Gateway
        ensures RefundKey(id) in s'.gate.At(g).refundLog <==> RefundKey(id) in s.gate.At(g).refundLog
        ensures RefundKey(id) in s.gate.At(g).refundLog ==>
                  s'.gate.At(g).refundLog[RefundKey(id)] == s.gate.At(g).refundLog[RefundKey(id)]
      {
        GatewayStep(s, i, mint);
        GatewayStepKeepsOthers(s, i, mint, id, g);
      }
    }
    if s'.db.purse.log != s.db.purse.log {
      AppendedLog(s.db.purse.log, CreditRow(w), RefundDeduct(id));
      AppendedLog(s.db.purse.log, CreditRow(w), RefundGrant(id));
    }
    if s'.db.books.txns != s.db.books.txns {
      AppendedTxns(s.db.books.txns, w.post.value, RefundOf(id));
    }
  }

  lemma OneWorker(s: State, i: nat, opening: map<string, int>)
    requires Inv(s, opening) && i in s.workers
    ensures WorkerOk(s.db, s.gate, s.locks, i, s.workers[i]) && RowsOk(s.db, s.gate, opening)
  {
    hide WorkerOk, RowsOk;
  }

  lemma GatewayStep(s: State, i: nat, mint: string)
    requires i in s.workers && s.workers[i].pc == CallGateway
    ensures Advance(s, i, mint) == DoCallGateway(s, i, s.workers[i], mint)
  {
    hide DoCallGateway;
  }

  /** A call on a request that is not approved ends where it starts. */
  lemma RefusedAtStart(s: State, i: nat, mint: string, id: string)
    requires i in s.workers && s.workers[i].job == Process(id)
    requires s.workers[i].pc == Start || s.workers[i].pc == Done
    requires id in s.db.refunds && Undecided(s.db.refunds[id])
    ensures var s' := Advance(s, i, mint); Silent(s, s', i) && s'.workers[i].pc == Done
  {
    hide Released;
  }

  /** A review has no statement but its read and its write. */
  lemma ReviewShape(db: Db, gate: Gate, locks: map<Resource, nat>, i: nat, w: Worker)
    requires WorkerOk(db, gate, locks, i, w) && w.job.Review?
    ensures w.pc == Start || w.pc == Write || w.pc == Done
  {
    hide HoldsOk, AbsentOk, PostOk, CallOk;
  }

  /** processRefund never puts a request back to PENDING, APPROVED or DENIED. */
  lemma ProcessOnlyFinishes(s: State, i: nat, mint: string, id: string)
    requires i in s.workers && s.workers[i].job == Process(id) && id in s.db.refunds
    ensures var s' := Advance(s, i, mint);
            id in s'.db.refunds && (s'.db.refunds[id].status == s.db.refunds[id].status || s'.db.refunds[id].status == PROCESSED)
  {
    hide Released, LedgerKey, CreditKey, DisputeKey, HasDispute, L.HasKey, L.HasId, HasCharge, RecordOf, RecordsCharge, Lines, Source, LineAmount,
         Booked, AfterCredit, DoStart, Key, Credit;
    var w := s.workers[i];
    if !Visible(w.pc) {
      InvisibleIsSilent(s, i, mint);
    } else if w.pc == Settle {
      SettleOwned(s, i);
    }
  }

  lemma StepQuiet(s: State, i: nat, mint: string, id: string, opening: map<string, int>)
    requires Inv(s, opening) && Quiet(s, id) && i in s.workers && InTime(s, Step(i, mint), id)
    ensures Quiet(Advance(s, i, mint), id)
  {
    hide Inv, Advance, Untouched, Idle, WorkerOk, RowsOk, InTime;
    StepIsOwned(s, i, mint, opening);
    if id in s.db.refunds && Undecided(s.db.refunds[id]) && s.workers[i].job == Process(id) {
      RefusedIsQuiet(s, i, mint, id);
    } else if id in s.db.refunds && s.workers[i].job == Process(id) {
      ProcessOnlyFinishes(s, i, mint, id);
    } else if s.workers[i].job.Review? && s.workers[i].job.refund == id {
      OneWorker(s, i, opening);
      ReviewShape(s.db, s.gate, s.locks, i, s.workers[i]);
      ReviewStepQuiet(s, i, mint, id);
    } else if id in s.db.refunds {
      OthersLeaveItAlone(s, i, mint, id, opening);
    }
  }

  lemma RefusedIsQuiet(s: State, i: nat, mint: string, id: string)
    requires Quiet(s, id) && i in s.workers && s.workers[i].job == Process(id) && id in s.db.refunds && Undecided(s.db.refunds[id])
    ensures Quiet(Advance(s, i, mint), id)
  {
    hide Advance, Untouched;
    RefusedAtStart(s, i, mint, id);
  }

  lemma ReviewStepQuiet(s: State, i: nat, mint: string, id: string)
    requires Quiet(s, id) && i in s.workers && s.workers[i].job.Review? && s.workers[i].job.refund == id && InTime(s, Step(i, mint), id)
    requires s.workers[i].pc == Start || s.workers[i].pc == Write || s.workers[i].pc == Done
    ensures Quiet(Advance(s, i, mint), id)
  {
    hide Released, HasSource, WroteAny, RefundKey;
  }

  /** A call that fails or dies leaves a quiet state quiet. */
  lemma SilentQuiet(s: State, s': State, i: nat, id: string)
    requires Quiet(s, id) && Silent(s, s', i)
    requires s.workers[i].pc == Start || s.workers[i].pc == Done ==> s'.workers[i].pc == Start || s'.workers[i].pc == Done
    ensures Quiet(s', id)
  {
    hide Untouched;
  }

  lemma ThrowEnds(s: State, i: nat)
    requires i in s.workers && (s.workers[i].pc == Start || s.workers[i].pc == Done)
    ensures Throw(s, i).workers[i].pc == Done
  {
    hide Released;
  }

  lemma CreateQuiet(s: State, id: string, q: Request, opening: map<string, int>)
    requires Inv(s, opening) && id !in s.db.refunds && Accepted(s.db, q).Some?
    ensures Quiet(s.(db := s.db.(refunds := s.db.refunds[id := Accepted(s.db, q).value])), id)
  {
    hide RowsOk, WorkerOk, RefundKey, WroteAny, HasSource, LatestCharge;
    UnknownIsUntouched(s.db, s.gate, opening, id);
    forall i | i in s.workers && s.workers[i].job == Process(id) ensures s.workers[i].pc == Start || s.workers[i].pc == Done {
      UnknownIsIdle(s.db, s.gate, s.locks, i, s.workers[i], id);
    }
  }

  lemma DoQuiet(s: State, a: Action, id: string, opening: map<string, int>)
    requires Inv(s, opening) && Quiet(s, id) && InTime(s, a, id)
    ensures Quiet(Do(s, a), id)
  {
    hide Inv, Advance, Throw, Finish, Unanswered, Accepted, WroteAny, HasSource, RefundKey, Silent, InTime;
    match a
    case Create(other, q) =>
      if other !in s.db.refunds && Accepted(s.db, q).Some? && other == id { CreateQuiet(s, id, q, opening); }
    case ReviewNow(_, _) =>
    case RegisterCharge(_, _, _) =>
      assert forall g: G.Gateway :: Do(s, a).gate.At(g).refundLog == s.gate.At(g).refundLog;
    case Spawn(_, _) =>
    case Step(i, mint) => if i in s.workers { StepQuiet(s, i, mint, id, opening); }
    case LoseAnswer(i) =>
      if i in s.workers {
        UnansweredIsSilent(s, i);
        SilentQuiet(s, Unanswered(s, i), i, id);
      }
    case FailCall(i) =>
      if i in s.workers {
        ThrowIsSilent(s, i);
        if s.workers[i].pc == Start || s.workers[i].pc == Done { ThrowEnds(s, i); }
        SilentQuiet(s, Throw(s, i), i, id);
      }
    case Crash(i) =>
      if i in s.workers {
        FinishSilent(s, i);
        SilentQuiet(s, Finish(s, i, s.workers[i]), i, id);
      }
  }

  // ----- Runs -----

  lemma TimelyPrefix(s: State, acts: seq<Action>, n: nat, id: string)
    requires Timely(s, acts, id) && n <= |acts|
    ensures Timely(s, acts[..n], id)
    ensures n < |acts| ==> InTime(Run(s, acts[..n]), acts[n], id)
  {
    hide Run, InTime;
    forall m | 0 <= m < n ensures InTime(Run(s, acts[..n][..m]), acts[..n][m], id) {
      assert acts[..n][..m] == acts[..m];
      assert InTime(Run(s, acts[..m]), acts[m], id);
    }
  }

  /** Reviews that read and write in one action are always in time. */
  lemma AtomicReviewsAreTimely(s: State, acts: seq<Action>, id: string, opening: map<string, int>)
    requires Initial(s, opening) && Spawns(acts, NotReview)
    ensures Timely(s, acts, id)
  {
    hide Run, Initial, Inv;
    forall n | 0 <= n < |acts| ensures InTime(Run(s, acts[..n]), acts[n], id) {
      PrefixSpawned(acts, n, NotReview);
      RunKeepsJobs(s, acts[..n], NotReview, opening);
    }
  }

  lemma PrefixSpawned(acts: seq<Action>, n: nat, allowed: Job -> bool)
    requires Spawns(acts, allowed) && n <= |acts|
    ensures Spawns(acts[..n], allowed)
  {
  }

  /**
   * While a request's reviews are in time, PENDING or DENIED means that it has had no effect
   * at all: no gateway entry, no ledger transaction, no credit transaction, no
   * paymentRefundId, and no call on it past its status check.
   */
  lemma {:induction false} UndecidedMeansUntouched(s: State, acts: seq<Action>, id: string, opening: map<string, int>)
    requires Initial(s, opening) && Timely(s, acts, id)
    ensures Quiet(Run(s, acts), id)
  {
    hide Inv, Do, InTime, Timely;
    if acts != [] {
      var n := |acts| - 1;
      TimelyPrefix(s, acts, n, id);
      UndecidedMeansUntouched(s, acts[..n], id, opening);
      Reachable(s, acts[..n], opening);
      DoQuiet(Run(s, acts[..n]), acts[n], id, opening);
    }
  }

  // ----- Without an approval -----

  /** No call and no action of the run approves the request. */
  ghost predicate NobodyApproves(acts: seq<Action>, id: string) {
    forall k :: 0 <= k < |acts| ==> !(acts[k].Spawn? && acts[k].job == Review(id, true)) && acts[k] != ReviewNow(id, true)
  }

  function NotApproval(id: string): Job -> bool {
    (job: Job) => job != Review(id, true)
  }

  ghost predicate Unapproved(s: State, id: string) {
    id in s.db.refunds ==> (s.db.refunds[id].status == PENDING || s.db.refunds[id].status == DENIED)
  }

  lemma StepUnapproved(s: State, i: nat, mint: string, id: string, opening: map<string, int>)
    requires Inv(s, opening) && Unapproved(s, id) && Quiet(s, id) && i in s.workers && s.workers[i].job != Review(id, true)
    ensures Unapproved(Advance(s, i, mint), id)
  {
    hide Inv, Advance, Untouched, WorkerOk, RowsOk, OwnDisputes, OwnTxns, OwnLog, OwnDelivery;
    StepIsOwned(s, i, mint, opening);
    if id in s.db.refunds && s.workers[i].job == Process(id) {
      RefusedAtStart(s, i, mint, id);
    } else if id in s.db.refunds && s.workers[i].job.Review? && s.workers[i].job.refund == id {
      OneWorker(s, i, opening);
      ReviewShape(s.db, s.gate, s.locks, i, s.workers[i]);
      DenialOnlyDenies(s, i, mint, id);
    }
  }

  lemma DenialOnlyDenies(s: State, i: nat, mint: string, id: string)
    requires i in s.workers && s.workers[i].job == Review(id, false) && Unapproved(s, id) && id in s.db.refunds
    requires s.workers[i].pc == Start || s.workers[i].pc == Write || s.workers[i].pc == Done
    ensures Unapproved(Advance(s, i, mint), id)
  {
    hide Released;
  }

  lemma DoUnapproved(s: State, a: Action, id: string, opening: map<string, int>)
    requires Inv(s, opening) && Unapproved(s, id) && Quiet(s, id) && AllJobs(s, NotApproval(id)) && a != ReviewNow(id, true)
    ensures Unapproved(Do(s, a), id) && InTime(s, a, id)
  {
    hide Inv, Advance, Throw, Finish, Unanswered, Quiet, LatestCharge;
    match a
    case Step(i, mint) =>
      if i in s.workers {
        assert NotApproval(id)(s.workers[i].job);
        StepUnapproved(s, i, mint, id, opening);
      }
    case FailCall(i) => if i in s.workers { ThrowIsSilent(s, i); }
    case LoseAnswer(i) => if i in s.workers { UnansweredIsSilent(s, i); }
    case Crash(i) => if i in s.workers { FinishSilent(s, i); }
    case _ =>
  }

  /**
   * Nothing moves without an approval: in any run in which nobody approves a request, and
   * however many process calls are made on it, it stays PENDING or DENIED, and there is no
   * gateway entry, ledger transaction, credit transaction or paymentRefundId for it.
   */
  lemma {:induction false} NoApprovalNoEffect(s: State, acts: seq<Action>, id: string, opening: map<string, int>)
    requires Initial(s, opening) && NobodyApproves(acts, id)
    ensures var e := Run(s, acts);
            Unapproved(e, id) && Quiet(e, id) && (id in e.db.refunds ==> Untouched(e.db, e.gate, id))
  {
    hide Inv, Do, InTime, Untouched;
    if acts != [] {
      var n := |acts| - 1;
      NoApprovalNoEffect(s, acts[..n], id, opening);
      Reachable(s, acts[..n], opening);
      RunKeepsJobs(s, acts[..n], NotApproval(id), opening);
      DoUnapproved(Run(s, acts[..n]), acts[n], id, opening);
      DoQuiet(Run(s, acts[..n]), acts[n], id, opening);
    }
  }
}
