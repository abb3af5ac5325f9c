/**
 * Disputes when the calls on one dispute do not overlap.
 *
 * setOutcome and attachEvidence check the status they read and write it later with nothing
 * held in between, so what follows is about runs in which at most one call on the dispute is
 * past its read at any time. Everything else may overlap, fail or die as it likes.
 */
module Serial {
  import opened Prelude
  import opened Keys
  import opened Engine
  import opened Invariant
  import opened Machine
  import opened Once
  import opened Theorems
  import opened Effects
  import opened Reviews
  import L = Ledger
  import C = Credits

  predicate On(w: Worker, d: string) {
    DisputeOfJob(w.job) == Some(d) && w.pc != Start && w.pc != Done
  }

  ghost predicate OneAtATime(workers: map<nat, Worker>, d: string) {
    forall i, j :: i in workers && j in workers && On(workers[i], d) && On(workers[j], d) ==> i == j
  }

  predicate Resolved(status: DisputeStatus) {
    status == WON || status == LOST
  }

  /** OPEN, then EVIDENCE_SUBMITTED, then resolved. */
  function Height(status: DisputeStatus): nat {
    match status case OPEN => 0 case EVIDENCE_SUBMITTED => 1 case WON => 2 case LOST => 2
  }

  /** The status moves only up, and a resolved one not at all. */
  predicate Upward(before: DisputeStatus, after: DisputeStatus) {
    Height(before) <= Height(after) && (Resolved(before) ==> after == before)
  }

  /** A resolved dispute has exactly the outcome posting of its status; an unresolved one has none. */
  ghost predicate Matched(db: Db, d: string) {
    d in db.disputes ==>
      && (HasSource(db.books.txns, WonOf(d)) <==> db.disputes[d].status == WON)
      && (HasSource(db.books.txns, LostOf(d)) <==> db.disputes[d].status == LOST)
  }

  /** What a call past its read still knows about the status. */
  predicate Current(w: Worker, status: DisputeStatus) {
    !Resolved(status) && (w.job.Evidence? ==> status == OPEN)
  }

  ghost predicate Calm(s: State, d: string) {
    && Matched(s.db, d)
    && (d in s.db.disputes ==> forall i :: i in s.workers && On(s.workers[i], d) ==> Current(s.workers[i], s.db.disputes[d].status))
  }

  // ----- One action -----

  /** Nothing was posted for a dispute that does not exist, and no call is past its read of it. */
  lemma UnknownDispute(s: State, d: string, opening: map<string, int>)
    requires Inv(s, opening) && d !in s.db.disputes
    ensures !HasSource(s.db.books.txns, WonOf(d)) && !HasSource(s.db.books.txns, LostOf(d))
    ensures forall i :: i in s.workers ==> !On(s.workers[i], d)
  {
    hide LedgerKey, L.Sound, C.Sound, WorkerOk;
    forall k | 0 <= k < |s.db.books.txns| ensures s.db.books.txns[k].source != Some(WonOf(d)) && s.db.books.txns[k].source != Some(LostOf(d)) {
      assert TxnOk(s.db, s.db.books.txns[k]);
    }
    forall i | i in s.workers ensures !On(s.workers[i], d) {
      if On(s.workers[i], d) { OnMeansKnown(s.db, s.gate, s.locks, i, s.workers[i], d); }
    }
  }

  lemma OnMeansKnown(db: Db, gate: Gate, locks: map<Resource, nat>, i: nat, w: Worker, d: string)
    requires WorkerOk(db, gate, locks, i, w) && On(w, d)
    ensures d in db.disputes
    ensures w.job.Outcome? && w.pc == Commit ==> w.post.Some? || HasSource(db.books.txns, Source(w))
    ensures w.post.Some? ==> w.post.value.source == Some(Source(w))
    ensures w.job.Evidence? ==> w.pc == Write
    ensures w.job.Outcome? ==> w.pc != Final && w.pc != Catch && w.pc != Write && w.pc != CallGateway
  {
    hide LedgerKey, CreditKey, DisputeKey, HoldsOk, AbsentOk, Credit, ProcessOk, HasSource, Lines;
  }

  lemma SilentCalm(s: State, s': State, i: nat, d: string)
    requires Calm(s, d) && Silent(s, s', i)
    requires On(s'.workers[i], d) ==> On(s.workers[i], d)
    ensures Calm(s', d)
    ensures d in s.db.disputes ==> d in s'.db.disputes && Upward(s.db.disputes[d].status, s'.db.disputes[d].status)
  {
    hide HasSource;
  }

  /** The read: a call gets past it only if the status then allows what it is going to write. */
  lemma StartReads(s: State, i: nat, d: string)
    requires i in s.workers && s.workers[i].pc == Start && DisputeOfJob(s.workers[i].job) == Some(d)
    requires On(DoStart(s, i, s.workers[i]).workers[i], d)
    ensures d in s.db.disputes && Current(DoStart(s, i, s.workers[i]).workers[i], s.db.disputes[d].status)
  {
    hide Given, Released;
  }

  lemma StartCalm(s: State, i: nat, d: string)
    requires Calm(s, d) && i in s.workers && s.workers[i].pc == Start && DisputeOfJob(s.workers[i].job) == Some(d)
    ensures Calm(DoStart(s, i, s.workers[i]), d)
  {
    hide DoStart, Matched, HasSource;
    var s' := DoStart(s, i, s.workers[i]);
    StartSilent(s, i);
    if On(s'.workers[i], d) {
      StartReads(s, i, d);
    }
  }

  lemma CommitCalm(s: State, i: nat, d: string, opening: map<string, int>)
    requires Inv(s, opening) && Calm(s, d) && OneAtATime(s.workers, d)
    requires i in s.workers && s.workers[i].pc == Commit && s.workers[i].job.Outcome? && s.workers[i].job.dispute == d
    ensures var s' := DoCommit(s, i, s.workers[i]);
            Calm(s', d) && d in s.db.disputes && d in s'.db.disputes && Upward(s.db.disputes[d].status, s'.db.disputes[d].status)
  {
    hide Inv, RowsOk, WorkerOk, HasSource, Booked, Released;
    var w := s.workers[i];
    OneWorker(s, i, opening);
    OnMeansKnown(s.db, s.gate, s.locks, i, w, d);
    BookedTxns(s.db.books, w);
    if w.post.Some? {
      AppendedTxns(s.db.books.txns, w.post.value, WonOf(d));
      AppendedTxns(s.db.books.txns, w.post.value, LostOf(d));
    }
  }

  lemma WriteCalm(s: State, i: nat, d: string)
    requires Calm(s, d) && OneAtATime(s.workers, d)
    requires i in s.workers && s.workers[i].pc == Write && s.workers[i].job == Evidence(d)
    ensures var s' := DoWrite(s, i, s.workers[i]);
            Calm(s', d) && (d in s.db.disputes ==> d in s'.db.disputes && Upward(s.db.disputes[d].status, s'.db.disputes[d].status))
  {
    hide HasSource, Released;
  }

  /** A call on anything else does not change the dispute's status or its outcome postings. */
  lemma ElsewhereCalm(s: State, i: nat, mint: string, d: string, opening: map<string, int>)
    requires Inv(s, opening) && Calm(s, d) && i in s.workers && DisputeOfJob(s.workers[i].job) != Some(d)
    ensures var s' := Advance(s, i, mint);
            Calm(s', d) && (d in s.db.disputes ==> d in s'.db.disputes && s'.db.disputes[d].status == s.db.disputes[d].status)
  {
    hide Inv, Advance, HasSource, OwnDelivery, OwnLog, OwnRefunds, CreditRow;
    var w := s.workers[i];
    var s' := Advance(s, i, mint);
    StepIsOwned(s, i, mint, opening);
    if s'.db.books.txns != s.db.books.txns {
      AppendedTxns(s.db.books.txns, w.post.value, WonOf(d));
      AppendedTxns(s.db.books.txns, w.post.value, LostOf(d));
    }
    if d !in s.db.disputes {
      UnknownDispute(s, d, opening);
    }
  }

  lemma StepCalm(s: State, i: nat, mint: string, d: string, opening: map<string, int>)
    requires Inv(s, opening) && Calm(s, d) && OneAtATime(s.workers, d) && i in s.workers
    ensures var s' := Advance(s, i, mint);
            Calm(s', d) && (d in s.db.disputes ==> d in s'.db.disputes && Upward(s.db.disputes[d].status, s'.db.disputes[d].status))
  {
    hide Inv, Calm, OneAtATime, DoStart, DoCommit, DoWrite, DoSettle, DoCallGateway, DoDedup, DoFind, DoInsert, DoCheck, DoPost, DoLink, DoKeyCheck,
         DoRowLock, DoRecord, DoResolve, DoFinal, DoCatch, Owned, Silent, WorkerOk, RowsOk;
    var w := s.workers[i];
    OneWorker(s, i, opening);
    if DisputeOfJob(w.job) != Some(d) {
      ElsewhereCalm(s, i, mint, d, opening);
    } else if w.pc == Start {
      StartCalm(s, i, d);
      StartSilent(s, i);
      SameStatus(s, Advance(s, i, mint), i, d);
    } else if w.pc == Done {
      SameStatus(s, s, i, d);
    } else {
      OnMeansKnown(s.db, s.gate, s.locks, i, w, d);
      if !Visible(w.pc) {
        InvisibleIsSilent(s, i, mint);
        SilentCalm(s, Advance(s, i, mint), i, d);
      } else if w.pc == Settle {
        SettleCalm(s, i, d);
      } else if w.pc == Commit {
        CommitCalm(s, i, d, opening);
      } else {
        WriteCalm(s, i, d);
      }
    }
  }

  lemma SameStatus(s: State, s': State, i: nat, d: string)
    requires Silent(s, s', i) || s == s'
    ensures d in s.db.disputes ==> d in s'.db.disputes && Upward(s.db.disputes[d].status, s'.db.disputes[d].status)
  {
  }

  lemma SettleCalm(s: State, i: nat, d: string)
    requires Calm(s, d) && i in s.workers && s.workers[i].pc == Settle && DisputeOfJob(s.workers[i].job) == Some(d)
    ensures var s' := DoSettle(s, i, s.workers[i]);
            Calm(s', d) && (d in s.db.disputes ==> d in s'.db.disputes && Upward(s.db.disputes[d].status, s'.db.disputes[d].status))
  {
    hide DoSettle, HasSource, Owned, CreditRow;
    SettleOwned(s, i);
  }

  lemma DoCalm(s: State, a: Action, d: string, opening: map<string, int>)
    requires Inv(s, opening) && Calm(s, d) && OneAtATime(s.workers, d)
    ensures Calm(Do(s, a), d)
    ensures d in s.db.disputes ==> d in Do(s, a).db.disputes && Upward(s.db.disputes[d].status, Do(s, a).db.disputes[d].status)
  {
    hide Inv, Advance, Throw, Finish, Unanswered, Accepted, HasSource;
    match a
    case Create(_, _) =>
    case ReviewNow(_, _) =>
    case RegisterCharge(_, _, _) =>
    case Spawn(_, _) =>
    case Step(i, mint) => if i in s.workers { StepCalm(s, i, mint, d, opening); }
    case LoseAnswer(i) =>
      if i in s.workers {
        UnansweredIsSilent(s, i);
        SilentCalm(s, Unanswered(s, i), i, d);
      }
    case FailCall(i) =>
      if i in s.workers {
        ThrowIsSilent(s, i);
        ThrowLeaves(s, i, d);
        SilentCalm(s, Throw(s, i), i, d);
      }
    case Crash(i) =>
      if i in s.workers {
        FinishSilent(s, i);
        SilentCalm(s, Finish(s, i, s.workers[i]), i, d);
      }
  }

  lemma ThrowLeaves(s: State, i: nat, d: string)
    requires i in s.workers
    ensures On(Throw(s, i).workers[i], d) ==> On(s.workers[i], d)
  {
    hide Released, AfterCredit;
    ThrowIsSilent(s, i);
    if s.workers[i].pc == Start || s.workers[i].pc == Done { ThrowEnds(s, i); }
  }

  // ----- Runs -----

  ghost predicate AlwaysOneAtATime(s: State, acts: seq<Action>, d: string) {
    forall n :: 0 <= n <= |acts| ==> OneAtATime(Run(s, acts[..n]).workers, d)
  }

  lemma PrefixOneAtATime(s: State, acts: seq<Action>, d: string, n: nat)
    requires AlwaysOneAtATime(s, acts, d) && n <= |acts|
    ensures AlwaysOneAtATime(s, acts[..n], d)
  {
    hide Run, OneAtATime;
    forall m | 0 <= m <= n ensures OneAtATime(Run(s, acts[..n][..m]).workers, d) {
      assert acts[..n][..m] == acts[..m];
    }
  }

  /**
   * With calls on a dispute serialised, and anything failing or dying, a WON dispute has its
   * WON posting and no fee, a LOST one its fee and no WON posting, an unresolved one neither.
   */
  lemma {:induction false} OutcomeMatchesStatus(s: State, acts: seq<Action>, d: string, opening: map<string, int>)
    requires Initial(s, opening) && AlwaysOneAtATime(s, acts, d)
    ensures Calm(Run(s, acts), d)
  {
    hide Inv, Do, OneAtATime, HasSource;
    if acts != [] {
      var n := |acts| - 1;
      PrefixOneAtATime(s, acts, d, n);
      OutcomeMatchesStatus(s, acts[..n], d, opening);
      Reachable(s, acts[..n], opening);
      assert OneAtATime(Run(s, acts[..n]).workers, d);
      hide Calm, AlwaysOneAtATime, Initial;
      DoCalm(Run(s, acts[..n]), acts[n], d, opening);
    }
  }

  /** WON and LOST are absorbing, and until then the status only moves up. */
  lemma {:induction false} StatusOnlyMovesUp(s: State, acts: seq<Action>, m: nat, d: string, opening: map<string, int>)
    requires Initial(s, opening) && AlwaysOneAtATime(s, acts, d) && m <= |acts|
    requires d in Run(s, acts[..m]).db.disputes
    ensures d in Run(s, acts).db.disputes
    ensures Upward(Run(s, acts[..m]).db.disputes[d].status, Run(s, acts).db.disputes[d].status)
    decreases |acts|
  {
    hide Inv, Do, OneAtATime, Calm, Initial, AlwaysOneAtATime;
    if m == |acts| {
      assert acts[..m] == acts;
    } else {
      var n := |acts| - 1;
      assert acts[..n][..m] == acts[..m];
      PrefixOneAtATime(s, acts, d, n);
      StatusOnlyMovesUp(s, acts[..n], m, d, opening);
      OutcomeMatchesStatus(s, acts[..n], d, opening);
      Reachable(s, acts[..n], opening);
      AtPrefix(s, acts, d, n);
      DoCalm(Run(s, acts[..n]), acts[n], d, opening);
    }
  }

  lemma AtPrefix(s: State, acts: seq<Action>, d: string, n: nat)
    requires AlwaysOneAtATime(s, acts, d) && n <= |acts|
    ensures OneAtATime(Run(s, acts[..n]).workers, d)
  {
    hide Run, OneAtATime;
  }

  /**
   * Chargeback, then an outcome, serialised: WON leaves every account where it was before the
   * chargeback, LOST leaves the reversal and one fee, and an open dispute just the reversal.
   */
  lemma SerialDisputeMoves(s: State, acts: seq<Action>, d: string, a: L.Account, opening: map<string, int>)
    requires Initial(s, opening) && AlwaysOneAtATime(s, acts, d) && d in Run(s, acts).db.disputes
    ensures var db := Run(s, acts).db;
            var x := db.disputes[d];
            var fee := FeeOf(db.books.txns, d);
            && (fee > 0 <==> x.status == LOST) && fee >= 0
            && DisputeMoves(db.books.txns, d, x.charge, a)
               == if x.status == WON then 0
                  else if a == L.Account("test-admin-1", L.REVENUE) then -x.amount
                  else if a == L.Account("test-admin-1", L.EXPENSE) then fee
                  else if a == L.Account(x.user, L.ASSET) then -x.amount - fee
                  else 0
  {
    hide Initial, AlwaysOneAtATime, Do, Run, HasSource, DisputeMoves, FeeOf;
    OutcomeMatchesStatus(s, acts, d, opening);
    DisputeNeverCreatesMoney(s, acts, d, a, opening);
  }

  // ----- Credits of serialised calls -----

  /** Only a call past its read of the dispute is in the credits call that a WON outcome makes. */
  lemma SerialWonIsSingle(s: State, d: string, opening: map<string, int>)
    requires Inv(s, opening) && OneAtATime(s.workers, d)
    ensures Single(s, CreditKey(WonGrant(d)))
  {
    hide RowsOk, WorkerOk, CreditKey, OneAtATime;
    forall i | Past(s, i, CreditKey(WonGrant(d))) ensures On(s.workers[i], d) {
      CreditKeysSeparate(Credit(s.workers[i]).source, WonGrant(d));
      CreditCaller(s.db, s.gate, s.locks, i, s.workers[i]);
    }
    OnIsSingle(s, d);
  }

  lemma OnIsSingle(s: State, d: string)
    requires forall i :: Past(s, i, CreditKey(WonGrant(d))) ==> On(s.workers[i], d)
    ensures OneAtATime(s.workers, d) ==> Single(s, CreditKey(WonGrant(d)))
  {
    hide CreditKey, Key, On;
  }

  /** With calls on a dispute serialised, winning it grants its credits at most once. */
  lemma SerialWonGrantsOnce(s: State, acts: seq<Action>, d: string, opening: map<string, int>)
    requires Initial(s, opening) && AlwaysOneAtATime(s, acts, d)
    ensures C.Count(Run(s, acts).db.purse.log, CreditKey(WonGrant(d))) <= 1
  {
    hide Single, Run, Inv, CreditKey, Initial, OneAtATime;
    forall n | 0 <= n <= |acts| ensures Single(Run(s, acts[..n]), CreditKey(WonGrant(d))) {
      Reachable(s, acts[..n], opening);
      SerialWonIsSingle(Run(s, acts[..n]), d, opening);
    }
    SingleKeyIsUsedOnce(s, acts, CreditKey(WonGrant(d)), opening);
  }

  /** At most one processRefund call on the request is past its status check. */
  ghost predicate OneProcessing(workers: map<nat, Worker>, id: string) {
    forall i, j :: i in workers && j in workers && Processing(workers[i], id) && Processing(workers[j], id) ==> i == j
  }

  predicate Processing(w: Worker, id: string) {
    w.job == Process(id) && w.pc != Start && w.pc != Done
  }

  lemma SerialRefundIsSingle(s: State, id: string, opening: map<string, int>)
    requires Inv(s, opening) && OneProcessing(s.workers, id)
    ensures Single(s, CreditKey(RefundGrant(id)))
  {
    hide RowsOk, WorkerOk, CreditKey, OneProcessing;
    forall i | Past(s, i, CreditKey(RefundGrant(id))) ensures Processing(s.workers[i], id) {
      CreditKeysSeparate(Credit(s.workers[i]).source, RefundGrant(id));
      CreditCaller(s.db, s.gate, s.locks, i, s.workers[i]);
    }
    ProcessingIsSingle(s, id);
  }

  lemma ProcessingIsSingle(s: State, id: string)
    requires forall i :: Past(s, i, CreditKey(RefundGrant(id))) ==> Processing(s.workers[i], id)
    ensures OneProcessing(s.workers, id) ==> Single(s, CreditKey(RefundGrant(id)))
  {
    hide CreditKey, Key, Processing;
  }

  /**
   * A CREDITS request whose processRefund calls do not overlap is granted at most once, and
   * exactly once, for its amount, if it is PROCESSED, whatever fails in between.
   */
  lemma SerialCreditsRefundGrantsOnce(s: State, acts: seq<Action>, id: string, opening: map<string, int>)
    requires Initial(s, opening) && forall n :: 0 <= n <= |acts| ==> OneProcessing(Run(s, acts[..n]).workers, id)
    requires id in Run(s, acts).db.refunds && Run(s, acts).db.refunds[id].kind == CREDITS
    ensures var e := Run(s, acts);
            var r := e.db.refunds[id];
            && C.Count(e.db.purse.log, CreditKey(RefundGrant(id))) <= 1
            && (r.status == PROCESSED ==>
                  C.Count(e.db.purse.log, CreditKey(RefundGrant(id))) == 1 && Wrote(e.db.purse.log, RefundGrant(id), r.user, r.amount))
  {
    hide Single, Run, Inv, CreditKey, Initial, OneProcessing, C.Count, Wrote, WroteAny;
    forall n | 0 <= n <= |acts| ensures Single(Run(s, acts[..n]), CreditKey(RefundGrant(id))) {
      Reachable(s, acts[..n], opening);
      SerialRefundIsSingle(Run(s, acts[..n]), id, opening);
    }
    SingleKeyIsUsedOnce(s, acts, CreditKey(RefundGrant(id)), opening);
    CreditRefundGrants(s, acts, id, opening);
    var e := Run(s, acts);
    if e.db.refunds[id].status == PROCESSED {
      Reachable(s, acts, opening);
      SomeIsWritten(e, id, opening);
      WroteCounts(e.db.purse.log, RefundGrant(id));
    }
  }

  lemma SomeIsWritten(s: State, id: string, opening: map<string, int>)
    requires Inv(s, opening) && id in s.db.refunds && Wrote(s.db.purse.log, RefundGrant(id), s.db.refunds[id].user, s.db.refunds[id].amount)
    ensures WroteAny(s.db.purse.log, RefundGrant(id))
    ensures forall k :: 0 <= k < |s.db.purse.log| && s.db.purse.log[k].source == Some(RefundGrant(id)) ==>
              s.db.purse.log[k].key == Some(CreditKey(RefundGrant(id)))
  {
    hide RowsOk, WorkerOk, CreditKey;
    ChargesKnown(s.db, s.gate, opening, "", RefundGrant(id));
  }
}
