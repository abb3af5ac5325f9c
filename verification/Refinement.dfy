/**
 * A payment refund, however many calls overlap on it, is one atomic refund, exactly as long
 * as its reviews are in time.
 *
 * The specification is a machine of four steps in a fixed order: review, pay at the
 * gateway, book, finish. Every action of the engine is one of these or leaves the request
 * where it is, and each stage fixes what the gateway and the ledger hold for the request.
 */
module Refinement {
  import opened Prelude
  import opened Keys
  import opened Engine
  import opened Invariant
  import opened Steps
  import opened Machine
  import opened Totals
  import opened Theorems
  import opened Effects
  import opened Reviews
  import G = Gateways
  import L = Ledger
  import C = Credits

  /** How far a payment refund has come: decided, paid at the gateway under which id, booked. */
  datatype Stage = Stage(status: RefundStatus, paid: Option<string>, booked: bool)

  ghost function StageOf(s: State, id: string): Stage
    requires id in s.db.refunds
  {
    var r := s.db.refunds[id];
    Stage(r.status,
          if r.gateway.Some? && RefundKey(id) in s.gate.At(r.gateway.value).refundLog
          then Some(s.gate.At(r.gateway.value).refundLog[RefundKey(id)].gatewayRefundId) else None,
          r.paymentRefundId.Some?)
  }

  // ----- The specification -----

  predicate Review(x: Stage, y: Stage) {
    x == Stage(PENDING, None, false) && (y == x.(status := APPROVED) || y == x.(status := DENIED))
  }

  predicate Pay(x: Stage, y: Stage) {
    x == Stage(APPROVED, None, false) && y.paid.Some? && y == x.(paid := y.paid)
  }

  predicate Book(x: Stage, y: Stage) {
    x.status == APPROVED && x.paid.Some? && !x.booked && y == x.(booked := true)
  }

  predicate FinishRefund(x: Stage, y: Stage) {
    x.status == APPROVED && x.paid.Some? && x.booked && y == x.(status := PROCESSED)
  }

  predicate Next(x: Stage, y: Stage) {
    x == y || Review(x, y) || Pay(x, y) || Book(x, y) || FinishRefund(x, y)
  }

  function Rank(x: Stage): nat {
    (if x.paid.Some? then 1 else 0) + (if x.booked then 1 else 0) + (if x.status == PROCESSED then 1 else 0)
  }

  // ----- Each action is a step of the specification -----

  /** A booked request is paid under the id it carries, and a finished one is booked. */
  lemma BookedIsPaid(s: State, id: string, opening: map<string, int>)
    requires Inv(s, opening) && id in s.db.refunds && s.db.refunds[id].kind == PAYMENT
    ensures s.db.refunds[id].gateway.Some?
    ensures StageOf(s, id).booked ==> StageOf(s, id).paid == s.db.refunds[id].paymentRefundId
    ensures StageOf(s, id).status == PROCESSED ==> StageOf(s, id).booked
    ensures StageOf(s, id).paid.Some? ==>
              s.gate.At(s.db.refunds[id].gateway.value).refundLog[RefundKey(id)]
              == G.Refunded(StageOf(s, id).paid.value, s.db.refunds[id].amount)
  {
    hide WorkerOk, L.Sound, C.Sound, TxnOk, DisputeOk, CreditOk, SettledOk, DisputesUnique, ChargesUnique, HasSource,
         CreditKey;
    assert RefundOk(s.db, s.gate, id);
    var g := s.db.refunds[id].gateway.value;
    if RefundKey(id) in s.gate.At(g).refundLog {
      LoggedAmount(s.db, s.gate, g, id);
    }
  }

  lemma LoggedAmount(db: Db, gate: Gate, g: G.Gateway, id: string)
    requires GateOk(db, gate) && RefundKey(id) in gate.At(g).refundLog && id in db.refunds
    ensures gate.At(g).refundLog[RefundKey(id)].refundedAmount == db.refunds[id].amount
  {
    hide CreditKey;
    assert EntryOk(db, g, RefundKey(id), gate.At(g).refundLog[RefundKey(id)]);
    var other :| other in db.refunds && RefundKey(id) == CreditKey(RefundDeduct(other))
                 && db.refunds[other].amount == gate.At(g).refundLog[RefundKey(id)].refundedAmount;
    CreditKeysSeparate(RefundDeduct(id), RefundDeduct(other));
  }

  /** A call past its status check works on a request that was approved; unless booked it still is. */
  lemma PastCheckMeansApproved(s: State, i: nat, id: string, opening: map<string, int>)
    requires Inv(s, opening) && Quiet(s, id) && i in s.workers && s.workers[i].job == Process(id)
    requires s.workers[i].pc != Start && s.workers[i].pc != Done
    requires id in s.db.refunds && s.db.refunds[id].kind == PAYMENT
    ensures s.db.refunds[id].status == APPROVED || s.db.refunds[id].status == PROCESSED
    ensures !StageOf(s, id).booked ==> s.db.refunds[id].status == APPROVED
  {
    hide Inv, Untouched;
    BookedIsPaid(s, id, opening);
    assert Undecided(s.db.refunds[id]) ==> Idle(s.workers, id);
  }

  lemma PayIsPay(s: State, i: nat, mint: string, id: string, opening: map<string, int>)
    requires Inv(s, opening) && Quiet(s, id) && i in s.workers && s.workers[i].job == Process(id) && s.workers[i].pc == CallGateway
    requires id in s.db.refunds && s.db.refunds[id].kind == PAYMENT
    ensures var s' := DoCallGateway(s, i, s.workers[i], mint);
            s'.db == s.db && Next(StageOf(s, id), StageOf(s', id))
  {
    hide Inv, Quiet, WorkerOk, RowsOk, CreditKey;
    BookedIsPaid(s, id, opening);
    PastCheckMeansApproved(s, i, id, opening);
    OneWorker(s, i, opening);
    CallGatewayFacts(s.db, s.gate, s.locks, i, s.workers[i]);
    SnapTerms(s.db, s.gate, s.locks, i, s.workers[i]);
  }

  lemma SnapTerms(db: Db, gate: Gate, locks: map<Resource, nat>, i: nat, w: Worker)
    requires WorkerOk(db, gate, locks, i, w) && w.job.Process? && w.pc != Start && w.pc != Done
    ensures w.job.refund in db.refunds && SameTerms(w.snap, db.refunds[w.job.refund])
    ensures w.pc == Commit ==> GatewayPaid(gate, w.snap, w.job.refund, w.answer.gatewayRefundId)
  {
    hide Shape, HoldsOk, AbsentOk, PostOk, LedgerKey, CreditKey, DisputeKey, GatewayPaid, Wrote;
    assert ProcessOk(db, gate, w);
  }

  lemma BookIsBook(s: State, i: nat, id: string, opening: map<string, int>)
    requires Inv(s, opening) && Quiet(s, id) && i in s.workers && s.workers[i].job == Process(id) && s.workers[i].pc == Commit
    requires id in s.db.refunds && s.db.refunds[id].kind == PAYMENT
    ensures Next(StageOf(s, id), StageOf(DoCommit(s, i, s.workers[i]), id))
  {
    hide Inv, Quiet, WorkerOk, RowsOk, CreditKey, Booked, Released;
    BookedIsPaid(s, id, opening);
    PastCheckMeansApproved(s, i, id, opening);
    OneWorker(s, i, opening);
    SnapTerms(s.db, s.gate, s.locks, i, s.workers[i]);
  }

  lemma FinishIsFinish(s: State, i: nat, id: string, opening: map<string, int>)
    requires Inv(s, opening) && Quiet(s, id) && i in s.workers && s.workers[i].job == Process(id) && s.workers[i].pc == Final
    requires id in s.db.refunds && s.db.refunds[id].kind == PAYMENT
    ensures Next(StageOf(s, id), StageOf(DoFinal(s, i, s.workers[i]), id))
  {
    hide Inv, Quiet, WorkerOk, RowsOk, CreditKey, Released, Wrote;
    BookedIsPaid(s, id, opening);
    PastCheckMeansApproved(s, i, id, opening);
    OneWorker(s, i, opening);
    FinalFacts(s.db, s.gate, s.locks, i, s.workers[i]);
  }

  lemma OwnStep(s: State, i: nat, mint: string, id: string, opening: map<string, int>)
    requires Inv(s, opening) && Quiet(s, id) && i in s.workers && s.workers[i].job == Process(id)
    requires id in s.db.refunds && s.db.refunds[id].kind == PAYMENT
    ensures id in Advance(s, i, mint).db.refunds && Next(StageOf(s, id), StageOf(Advance(s, i, mint), id))
  {
    hide Inv, Quiet, DoStart, DoCallGateway, DoDedup, DoFind, DoInsert, DoCheck, DoPost, DoLink, DoKeyCheck, DoRowLock, DoSettle,
         DoRecord, DoResolve, DoCommit, DoFinal, Next, CreditKey, Released, Review, RefundKey;
    var w := s.workers[i];
    if !Visible(w.pc) {
      InvisibleIsSilent(s, i, mint);
      Same(StageOf(s, id));
    } else {
      ProcessOnlyFinishes(s, i, mint, id);
      match w.pc
      case CallGateway => PayIsPay(s, i, mint, id, opening);
      case Settle => SettleOwned(s, i); Same(StageOf(s, id));
      case Commit => BookIsBook(s, i, id, opening);
      case Final => FinishIsFinish(s, i, id, opening);
      case Catch => Same(StageOf(s, id));
      case Write => Same(StageOf(s, id));
      case _ =>
    }
  }

  lemma Same(x: Stage)
    ensures Next(x, x)
  {
  }

  lemma DoRefines(s: State, a: Action, id: string, opening: map<string, int>)
    requires Inv(s, opening) && Quiet(s, id) && InTime(s, a, id)
    requires id in s.db.refunds && s.db.refunds[id].kind == PAYMENT
    ensures id in Do(s, a).db.refunds && Next(StageOf(s, id), StageOf(Do(s, a), id))
  {
    hide Inv, Advance, Throw, Finish, Unanswered, Accepted, RefundKey, Next, InTime;
    Same(StageOf(s, id));
    match a
    case Create(_, _) =>
    case ReviewNow(other, approve) =>
      if other == id && s.db.refunds[id].status == PENDING && RefundRow(id) !in s.locks {
        ReviewIsReview(s, id, approve, opening);
      }
    case RegisterCharge(_, _, _) =>
      assert forall g: G.Gateway :: Do(s, a).gate.At(g).refundLog == s.gate.At(g).refundLog;
    case Spawn(_, _) =>
    case Step(i, mint) =>
      if i in s.workers {
        if s.workers[i].job == Process(id) {
          OwnStep(s, i, mint, id, opening);
        } else if RefundOfJob(s.workers[i].job) == Some(id) {
          ReviewStep(s, i, mint, id, opening);
        } else {
          OthersLeaveItAlone(s, i, mint, id, opening);
          hide Untouched, Idle;
        }
      }
    case LoseAnswer(i) =>
      if i in s.workers { UnansweredIsSilent(s, i); }
    case FailCall(i) =>
      if i in s.workers { ThrowIsSilent(s, i); }
    case Crash(i) =>
      if i in s.workers { FinishSilent(s, i); }
  }

  /** The write of a split review: the one place where a request can leave the specification. */
  lemma ReviewWrite(s: State, i: nat, mint: string, id: string, approve: bool)
    requires i in s.workers && s.workers[i].job == Engine.Review(id, approve) && Writing(s, Step(i, mint), id)
    ensures var e := Do(s, Step(i, mint));
            && id in e.db.refunds && StageOf(e, id) == StageOf(s, id).(status := Decision(approve))
            && (Next(StageOf(s, id), StageOf(e, id)) ==> InTime(s, Step(i, mint), id))
            && e.db.refunds[id].kind == s.db.refunds[id].kind
  {
    hide RefundKey, Released;
  }

  /**
   * A review that passed its check and writes now keeps its request inside the specification
   * if and only if it is in time: the row is still PENDING, or already decided the same way.
   */
  lemma LateReview(s: State, i: nat, mint: string, id: string, approve: bool, opening: map<string, int>)
    requires Inv(s, opening) && Quiet(s, id) && id in s.db.refunds && s.db.refunds[id].kind == PAYMENT
    requires i in s.workers && s.workers[i].job == Engine.Review(id, approve) && s.workers[i].pc == Write && Free(s, RefundRow(id), i)
    ensures var e := Do(s, Step(i, mint));
            && id in e.db.refunds
            && (Next(StageOf(s, id), StageOf(e, id))
                <==> s.db.refunds[id].status == PENDING || s.db.refunds[id].status == Decision(approve))
  {
    hide Inv, RefundKey, Do, WroteAny, HasSource, Idle;
    ReviewWrite(s, i, mint, id, approve);
    BookedIsPaid(s, id, opening);
    if s.db.refunds[id].status == PENDING {
      assert Untouched(s.db, s.gate, id);
    }
  }

  lemma ReviewStep(s: State, i: nat, mint: string, id: string, opening: map<string, int>)
    requires Inv(s, opening) && Quiet(s, id) && InTime(s, Step(i, mint), id) && i in s.workers
    requires RefundOfJob(s.workers[i].job) == Some(id) && s.workers[i].job != Process(id)
    requires id in s.db.refunds && s.db.refunds[id].kind == PAYMENT
    ensures id in Advance(s, i, mint).db.refunds && Next(StageOf(s, id), StageOf(Advance(s, i, mint), id))
  {
    hide Inv, Next, RefundKey, Quiet, WorkerOk, RowsOk;
    Same(StageOf(s, id));
    OneWorker(s, i, opening);
    ReviewShape(s.db, s.gate, s.locks, i, s.workers[i]);
    if Writing(s, Step(i, mint), id) {
      LateReview(s, i, mint, id, s.workers[i].job.approve, opening);
    }
  }

  lemma ReviewIsReview(s: State, id: string, approve: bool, opening: map<string, int>)
    requires Inv(s, opening) && Quiet(s, id) && id in s.db.refunds && s.db.refunds[id].kind == PAYMENT
    requires s.db.refunds[id].status == PENDING && RefundRow(id) !in s.locks
    ensures var s' := Do(s, ReviewNow(id, approve));
            id in s'.db.refunds && Next(StageOf(s, id), StageOf(s', id))
  {
    hide Inv, RefundKey, WroteAny, HasSource, Idle;
    BookedIsPaid(s, id, opening);
    assert Untouched(s.db, s.gate, id);
  }

  // ----- Runs -----

  /** In the run, the request only ever takes steps of the specification. */
  ghost predicate Refines(s: State, acts: seq<Action>, id: string) {
    forall n :: 0 <= n < |acts| && Payable(Run(s, acts[..n]), id) ==>
      Payable(Run(s, acts[..n + 1]), id) && Next(StageOf(Run(s, acts[..n]), id), StageOf(Run(s, acts[..n + 1]), id))
  }

  predicate Payable(s: State, id: string) {
    id in s.db.refunds && s.db.refunds[id].kind == PAYMENT
  }

  lemma StepRefines(s: State, acts: seq<Action>, n: nat, id: string, opening: map<string, int>)
    requires Initial(s, opening) && Timely(s, acts, id) && n < |acts| && Payable(Run(s, acts[..n]), id)
    ensures Payable(Run(s, acts[..n + 1]), id)
    ensures Next(StageOf(Run(s, acts[..n]), id), StageOf(Run(s, acts[..n + 1]), id))
  {
    hide Inv, Initial, Do, Quiet, InTime, Timely, Next, StageOf;
    Reachable(s, acts[..n], opening);
    TimelyPrefix(s, acts, n, id);
    UndecidedMeansUntouched(s, acts[..n], id, opening);
    assert acts[..n + 1][..n] == acts[..n];
    DoRefines(Run(s, acts[..n]), acts[n], id, opening);
    KeepsKind(Run(s, acts[..n]), acts[n], id, opening);
  }

  lemma KeepsKind(s: State, a: Action, id: string, opening: map<string, int>)
    requires Inv(s, opening) && Payable(s, id)
    ensures Payable(Do(s, a), id)
  {
    hide Inv, Do;
    DoGood(s, a, opening);
  }

  lemma LateLeaves(s: State, acts: seq<Action>, n: nat, id: string)
    requires n < |acts| && Payable(Run(s, acts[..n]), id) && id in Run(s, acts[..n + 1]).db.refunds
    requires Next(StageOf(Run(s, acts[..n]), id), StageOf(Run(s, acts[..n + 1]), id))
    ensures InTime(Run(s, acts[..n]), acts[n], id)
  {
    hide Do, Next, StageOf;
    var mid := Run(s, acts[..n]);
    assert acts[..n + 1][..n] == acts[..n];
    if Writing(mid, acts[n], id) {
      ReviewWrite(mid, acts[n].worker, acts[n].mint, id, mid.workers[acts[n].worker].job.approve);
    }
  }

  /**
   * Refinement, over every run, with any number of calls and of reviews on a PAYMENT request:
   * at every action the request stays where it is or takes the one next step of review, pay,
   * book, finish, if and only if every review that writes it is in time.
   */
  lemma RunRefinesAtomicRefund(s: State, acts: seq<Action>, id: string, opening: map<string, int>)
    requires Initial(s, opening)
    requires id in Run(s, acts).db.refunds ==> Payable(Run(s, acts), id)
    ensures Refines(s, acts, id) <==> Timely(s, acts, id)
  {
    hide Inv, Initial, Do, Run, Next, StageOf, InTime;
    if Timely(s, acts, id) {
      forall n | 0 <= n < |acts| && Payable(Run(s, acts[..n]), id)
        ensures Payable(Run(s, acts[..n + 1]), id) && Next(StageOf(Run(s, acts[..n]), id), StageOf(Run(s, acts[..n + 1]), id))
      {
        StepRefines(s, acts, n, id, opening);
      }
    }
    if Refines(s, acts, id) {
      forall n | 0 <= n < |acts| ensures InTime(Run(s, acts[..n]), acts[n], id) {
        KindAtPrefix(s, acts, n, id, opening);
        if Payable(Run(s, acts[..n]), id) {
          LateLeaves(s, acts, n, id);
        } else {
          NothingToWrite(Run(s, acts[..n]), acts[n], id);
        }
      }
    }
  }

  lemma NothingToWrite(s: State, a: Action, id: string)
    requires id !in s.db.refunds
    ensures InTime(s, a, id)
  {
  }

  lemma KindAtPrefix(s: State, acts: seq<Action>, n: nat, id: string, opening: map<string, int>)
    requires Initial(s, opening) && n <= |acts|
    requires id in Run(s, acts).db.refunds ==> Payable(Run(s, acts), id)
    ensures id in Run(s, acts[..n]).db.refunds ==> Payable(Run(s, acts[..n]), id)
  {
    hide Inv, Initial, Run;
    PrefixEvolves(s, acts, n, opening);
  }

  /**
   * While reviews are in time, the rank over gateway paid, refund booked, status PROCESSED
   * never decreases, across any failures, deaths and retries.
   */
  lemma {:induction false} RankNeverDecreases(s: State, acts: seq<Action>, m: nat, id: string, opening: map<string, int>)
    requires Initial(s, opening) && Timely(s, acts, id) && m <= |acts| && Payable(Run(s, acts[..m]), id)
    ensures Payable(Run(s, acts), id)
    ensures Rank(StageOf(Run(s, acts[..m]), id)) <= Rank(StageOf(Run(s, acts), id))
    decreases |acts|
  {
    hide Inv, Initial, Do, StageOf, Run, Timely;
    if m == |acts| {
      assert acts[..m] == acts;
    } else {
      var n := |acts| - 1;
      assert acts[..n][..m] == acts[..m];
      TimelyPrefix(s, acts, n, id);
      RankNeverDecreases(s, acts[..n], m, id, opening);
      assert acts[..n + 1] == acts;
      StepRefines(s, acts, n, id, opening);
    }
  }

  /** What one failure-free refund leaves behind for a request, given the id the gateway minted. */
  datatype Effect = Effect(paid: Option<G.Refunded>, recorded: Option<string>, revenue: int, asset: int)

  function AtomicRefund(r: Refund, gid: string): Effect {
    Effect(Some(G.Refunded(gid, r.amount)), Some(gid), -r.amount, -r.amount)
  }

  function NoEffect(): Effect {
    Effect(None, None, 0, 0)
  }

  ghost function EffectOf(s: State, id: string): Effect
    requires id in s.db.refunds && s.db.refunds[id].gateway.Some?
  {
    var r := s.db.refunds[id];
    var log := s.gate.At(r.gateway.value).refundLog;
    Effect(if RefundKey(id) in log then Some(log[RefundKey(id)]) else None, r.paymentRefundId,
           MovedBy(s.db.books.txns, RefundOf(id), L.Account("test-admin-1", L.REVENUE)),
           MovedBy(s.db.books.txns, RefundOf(id), L.Account(r.user, L.ASSET)))
  }

  /**
   * While reviews are in time, a run that leaves a PAYMENT request PROCESSED leaves exactly the effect of one
   * failure-free refund: one gateway entry for the full amount under the recorded id, and
   * revenue and the user's asset account down by it once, with no other account touched. A
   * request not yet decided or denied has no effect at all.
   */
  lemma ProcessedIsOneAtomicRefund(s: State, acts: seq<Action>, id: string, opening: map<string, int>)
    requires Initial(s, opening) && Timely(s, acts, id) && Payable(Run(s, acts), id)
    ensures var e := Run(s, acts);
            var r := e.db.refunds[id];
            && r.gateway.Some?
            && (r.status == PROCESSED ==> r.paymentRefundId.Some? && EffectOf(e, id) == AtomicRefund(r, r.paymentRefundId.value))
            && (Undecided(r) ==> EffectOf(e, id) == NoEffect())
            && (forall a :: a != L.Account("test-admin-1", L.REVENUE) && a != L.Account(r.user, L.ASSET) ==>
                MovedBy(e.db.books.txns, RefundOf(id), a) == 0)
  {
    hide Initial, RowsOk, WorkerOk, CreditKey, Do, MovedBy, WroteAny, HasSource, Idle, RefundKey;
    var e := Run(s, acts);
    Reachable(s, acts, opening);
    UndecidedMeansUntouched(s, acts, id, opening);
    BookedIsPaid(e, id, opening);
    forall a ensures MovedBy(e.db.books.txns, RefundOf(id), a)
                  == if && e.db.refunds[id].paymentRefundId.Some?
                        && (a == L.Account("test-admin-1", L.REVENUE) || a == L.Account(e.db.refunds[id].user, L.ASSET))
                     then -e.db.refunds[id].amount else 0
    {
      RefundMoved(e.db, e.gate, opening, id, a);
    }
  }
}
