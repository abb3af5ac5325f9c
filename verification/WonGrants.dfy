/**
 * The two credits keys no row protects: a won dispute's grant, and a refunded charge's
 * deduction under several event ids.
 *
 * A WON call that posts holds the ledger key while its credits call runs, and one that finds
 * the posting committed looks its credits key up after them. So the grant is written once
 * unless a credits call that was to write it threw and was swallowed.
 */
module WonGrants {
  import opened Prelude
  import opened Keys
  import opened Engine
  import opened Invariant
  import opened Machine
  import opened Once
  import opened Theorems
  import opened Effects
  import opened Reviews
  import L = Ledger
  import C = Credits

  predicate Winning(w: Worker, d: string) {
    w.job.Outcome? && w.job.won && w.job.dispute == d
  }

  /** The statement that throws is inside the credits call of a WON outcome of d. */
  predicate Swallows(s: State, a: Action, d: string) {
    a.FailCall? && a.worker in s.workers && Winning(s.workers[a.worker], d) && InCredit(s.workers[a.worker].pc)
  }

  ghost predicate NoneSwallowed(s: State, acts: seq<Action>, d: string) {
    forall n :: 0 <= n < |acts| ==> !Swallows(Run(s, acts[..n]), acts[n], d)
  }

  /** A call past its credits call has its credits logged; one about to log them holds the posting. */
  ghost predicate WonCall(log: seq<C.CreditTxn>, w: Worker, d: string) {
    Winning(w, d) ==>
      && (w.pc == Resolve || w.pc == Commit ==> WroteAny(log, WonGrant(d)))
      && (PastLookup(w) ==> w.post.Some?)
  }

  ghost predicate Granted(s: State, d: string) {
    && (HasSource(s.db.books.txns, WonOf(d)) ==> WroteAny(s.db.purse.log, WonGrant(d)))
    && (forall i :: i in s.workers ==> WonCall(s.db.purse.log, s.workers[i], d))
  }

  // ----- One action -----

  lemma KeyIsGrant(db: Db, gate: Gate, opening: map<string, int>, d: string)
    requires RowsOk(db, gate, opening)
    ensures C.HasKey(db.purse.log, CreditKey(WonGrant(d))) <==> WroteAny(db.purse.log, WonGrant(d))
  {
    hide CreditKey, L.Sound, C.Sound;
    forall k | 0 <= k < |db.purse.log|
      ensures db.purse.log[k].key == Some(CreditKey(WonGrant(d))) <==> db.purse.log[k].source == Some(WonGrant(d))
    {
      assert CreditOk(db, gate, db.purse.log[k]);
      CreditKeysSeparate(db.purse.log[k].source.value, WonGrant(d));
    }
  }

  /** What a WON call in its credits call has. */
  lemma WinningFacts(db: Db, gate: Gate, opening: map<string, int>, locks: map<Resource, nat>, i: nat, w: Worker, d: string)
    requires RowsOk(db, gate, opening) && WorkerOk(db, gate, locks, i, w) && Winning(w, d)
    ensures InCredit(w.pc) ==>
      && Credit(w) == CreditCall(w.dis.user, w.dis.amount, true, C.REFUND, WonGrant(d)) && Credit(w).amount > 0
      && (w.post.Some? || HasSource(db.books.txns, WonOf(d)))
    ensures w.post.Some? ==> Holds(locks, LedgerId(LedgerKey(WonOf(d))), i) && w.post.value.source == Some(WonOf(d))
    ensures w.pc == Start || w.pc == Check || w.pc == Post || InCredit(w.pc) || w.pc == Resolve || w.pc == Commit || w.pc == Done
  {
    hide LedgerKey, CreditKey, DisputeKey, L.Sound, C.Sound, AbsentOk;
    if InCredit(w.pc) {
      assert DisputeOk(db, db.disputes[d]);
    }
  }

  lemma OtherKeepsGranted(s: State, s': State, i: nat, d: string)
    requires Granted(s, d) && Moved(s, s', i) && s.db.purse.log <= s'.db.purse.log
    requires HasSource(s'.db.books.txns, WonOf(d)) ==> HasSource(s.db.books.txns, WonOf(d)) || WroteAny(s'.db.purse.log, WonGrant(d))
    requires WonCall(s'.db.purse.log, s'.workers[i], d)
    ensures Granted(s', d)
  {
    hide HasSource, WroteAny;
    if WroteAny(s.db.purse.log, WonGrant(d)) {
      WroteAnyStays(s.db.purse.log, s'.db.purse.log, WonGrant(d));
    }
  }

  lemma KeyCheckGrants(s: State, i: nat, d: string, opening: map<string, int>)
    requires Inv(s, opening) && Granted(s, d) && i in s.workers && Winning(s.workers[i], d) && s.workers[i].pc == KeyCheck
    ensures var s' := DoKeyCheck(s, i, s.workers[i]); i in s'.workers ==> WonCall(s.db.purse.log, s'.workers[i], d)
  {
    hide Inv, RowsOk, WorkerOk, HasSource, WroteAny, CreditKey, C.HasKey, Credit;
    OneWorker(s, i, opening);
    WinningFacts(s.db, s.gate, opening, s.locks, i, s.workers[i], d);
    KeyIsGrant(s.db, s.gate, opening, d);
  }

  lemma RowLockGrants(s: State, i: nat, d: string, opening: map<string, int>)
    requires Inv(s, opening) && Granted(s, d) && i in s.workers && Winning(s.workers[i], d) && s.workers[i].pc == RowLock
    ensures var s' := DoRowLock(s, i, s.workers[i]); i in s'.workers ==> WonCall(s.db.purse.log, s'.workers[i], d)
  {
    hide Inv, RowsOk, WorkerOk, HasSource, WroteAny, CreditKey, C.Balance, Credit;
    OneWorker(s, i, opening);
    WinningFacts(s.db, s.gate, opening, s.locks, i, s.workers[i], d);
  }

  lemma SettleGrants(s: State, i: nat, d: string, opening: map<string, int>)
    requires Inv(s, opening) && Granted(s, d) && i in s.workers && Winning(s.workers[i], d) && s.workers[i].pc == Settle
    ensures var s' := DoSettle(s, i, s.workers[i]); i in s'.workers && WonCall(s'.db.purse.log, s'.workers[i], d)
  {
    hide Inv, RowsOk, WorkerOk, HasSource, WroteAny, CreditKey, C.Balance, Credit, DoSettle;
    OneWorker(s, i, opening);
    WinningFacts(s.db, s.gate, opening, s.locks, i, s.workers[i], d);
    SettleShape(s, i);
    AppendedLog(s.db.purse.log, CreditRow(s.workers[i]), WonGrant(d));
  }

  /** Before and after its credits call nothing it relies on can be missing. */
  lemma PlainGrants(s: State, i: nat, mint: string, d: string, opening: map<string, int>)
    requires Inv(s, opening) && Granted(s, d) && i in s.workers && Winning(s.workers[i], d) && !InCredit(s.workers[i].pc)
    ensures var s' := Advance(s, i, mint); i in s'.workers ==> WonCall(s.db.purse.log, s'.workers[i], d)
  {
    hide Inv, RowsOk, WorkerOk, HasSource, WroteAny, LedgerKey, CreditKey, L.HasKey, L.HasId, Lines, Committed, Released, DoCallGateway, DoDedup,
         DoFind, DoInsert, DoLink, DoKeyCheck, DoRowLock, DoSettle, DoRecord, DoFinal, DoCatch, DoWrite;
    OneWorker(s, i, opening);
    WinningFacts(s.db, s.gate, opening, s.locks, i, s.workers[i], d);
  }

  lemma WinningStep(s: State, i: nat, mint: string, d: string, opening: map<string, int>)
    requires Inv(s, opening) && Granted(s, d) && i in s.workers && Winning(s.workers[i], d)
    ensures var s' := Advance(s, i, mint); i in s'.workers && WonCall(s'.db.purse.log, s'.workers[i], d)
  {
    hide Inv, Granted, WonCall, DoStart, DoCallGateway, DoDedup, DoFind, DoInsert, DoCheck, DoPost, DoLink, DoKeyCheck, DoRowLock, DoSettle,
         DoRecord, DoResolve, DoCommit, DoFinal, DoCatch, DoWrite, Owned;
    StepIsOwned(s, i, mint, opening);
    match s.workers[i].pc
    case KeyCheck => KeyCheckGrants(s, i, d, opening);
    case RowLock => RowLockGrants(s, i, d, opening);
    case Settle => SettleGrants(s, i, d, opening);
    case _ => PlainGrants(s, i, mint, d, opening);
  }

  lemma StepGrants(s: State, i: nat, mint: string, d: string, opening: map<string, int>)
    requires Inv(s, opening) && Granted(s, d) && i in s.workers
    ensures Granted(Advance(s, i, mint), d)
  {
    hide Inv, Advance, HasSource, WroteAny, OwnRefunds, OwnDisputes, OwnDelivery, CreditRow, WonCall;
    var w := s.workers[i];
    var s' := Advance(s, i, mint);
    StepIsOwned(s, i, mint, opening);
    if Winning(w, d) {
      WinningStep(s, i, mint, d, opening);
    } else {
      NotWinning(s'.db.purse.log, s'.workers[i], d);
    }
    if s'.db.books.txns != s.db.books.txns {
      AppendedTxns(s.db.books.txns, w.post.value, WonOf(d));
      BookingIsGranted(s, i, mint, d, opening);
    }
    OtherKeepsGranted(s, s', i, d);
  }

  lemma NotWinning(log: seq<C.CreditTxn>, w: Worker, d: string)
    requires !Winning(w, d)
    ensures WonCall(log, w, d)
  {
  }

  /** The posting is committed by a call that has its credits logged. */
  lemma BookingIsGranted(s: State, i: nat, mint: string, d: string, opening: map<string, int>)
    requires Inv(s, opening) && Granted(s, d) && i in s.workers && Advance(s, i, mint).db.books.txns != s.db.books.txns
    ensures Source(s.workers[i]) == WonOf(d) && PostsLedger(s.workers[i].job) ==> WroteAny(Advance(s, i, mint).db.purse.log, WonGrant(d))
  {
    hide Inv, Advance, HasSource, WroteAny, Owned;
    StepIsOwned(s, i, mint, opening);
  }

  lemma DoGrants(s: State, a: Action, d: string, opening: map<string, int>)
    requires Inv(s, opening) && Granted(s, d) && !Swallows(s, a, d)
    ensures Granted(Do(s, a), d)
  {
    hide Inv, Advance, Throw, Finish, Accepted, HasSource, WroteAny;
    match a
    case Create(_, _) =>
    case ReviewNow(_, _) =>
    case RegisterCharge(_, _, _) =>
    case Spawn(_, _) =>
    case Step(i, mint) => if i in s.workers { StepGrants(s, i, mint, d, opening); }
    case LoseAnswer(i) =>
      if i in s.workers {
        UnansweredIsSilent(s, i);
        OtherKeepsGranted(s, Unanswered(s, i), i, d);
      }
    case FailCall(i) =>
      if i in s.workers {
        ThrowIsSilent(s, i);
        ThrowGrants(s, i, d, opening);
        OtherKeepsGranted(s, Throw(s, i), i, d);
      }
    case Crash(i) =>
      if i in s.workers {
        FinishSilent(s, i);
        OtherKeepsGranted(s, Finish(s, i, s.workers[i]), i, d);
      }
  }

  lemma ThrowGrants(s: State, i: nat, d: string, opening: map<string, int>)
    requires Inv(s, opening) && i in s.workers && (Winning(s.workers[i], d) ==> !InCredit(s.workers[i].pc))
    ensures i in Throw(s, i).workers && WonCall(s.db.purse.log, Throw(s, i).workers[i], d)
  {
    hide Inv, WroteAny, Released, AfterCredit;
    ThrowIsSilent(s, i);
  }

  // ----- Runs -----

  lemma {:induction false} RunGrants(s: State, acts: seq<Action>, d: string, opening: map<string, int>)
    requires Initial(s, opening) && NoneSwallowed(s, acts, d)
    ensures Granted(Run(s, acts), d)
  {
    hide Inv, Do, Swallows, WonCall, HasSource, WroteAny;
    if acts == [] {
      InitialGranted(s, d, opening);
    } else {
      var n := |acts| - 1;
      PrefixSwallowed(s, acts, n, d);
      RunGrants(s, acts[..n], d, opening);
      Reachable(s, acts[..n], opening);
      hide Granted, Initial, NoneSwallowed;
      DoGrants(Run(s, acts[..n]), acts[n], d, opening);
    }
  }

  lemma InitialGranted(s: State, d: string, opening: map<string, int>)
    requires Initial(s, opening)
    ensures Granted(s, d)
  {
  }

  lemma PrefixSwallowed(s: State, acts: seq<Action>, n: nat, d: string)
    requires NoneSwallowed(s, acts, d) && n <= |acts|
    ensures NoneSwallowed(s, acts[..n], d)
    ensures n < |acts| ==> !Swallows(Run(s, acts[..n]), acts[n], d)
  {
    hide Run, Swallows;
    forall m | 0 <= m < n ensures !Swallows(Run(s, acts[..n][..m]), acts[..n][m], d) {
      assert acts[..n][..m] == acts[..m];
    }
  }

  lemma GrantedIsSingle(s: State, d: string, opening: map<string, int>)
    requires Inv(s, opening) && Granted(s, d)
    ensures Single(s, CreditKey(WonGrant(d)))
  {
    hide RowsOk, WorkerOk, CreditKey, LedgerKey, HasSource, WroteAny;
    var key := CreditKey(WonGrant(d));
    forall i | Past(s, i, key) ensures Holds(s.locks, LedgerId(LedgerKey(WonOf(d))), i) {
      PastIsWinning(s.db, s.gate, s.locks, i, s.workers[i], d);
      WinningFacts(s.db, s.gate, opening, s.locks, i, s.workers[i], d);
      assert WonCall(s.db.purse.log, s.workers[i], d);
    }
  }

  lemma PastIsWinning(db: Db, gate: Gate, locks: map<Resource, nat>, i: nat, w: Worker, d: string)
    requires WorkerOk(db, gate, locks, i, w) && PastLookup(w) && Key(w) == CreditKey(WonGrant(d))
    ensures Winning(w, d)
  {
    hide LedgerKey, CreditKey, DisputeKey, HoldsOk, AbsentOk, PostOk, CallOk;
    CreditKeysSeparate(Credit(w).source, WonGrant(d));
    assert Shape(w);
  }

  /**
   * In any interleaving in which no credits call of a WON outcome throws, winning a dispute
   * grants its credits at most once, and exactly once if the outcome is posted.
   */
  lemma WonGrantsOnce(s: State, acts: seq<Action>, d: string, opening: map<string, int>)
    requires Initial(s, opening) && NoneSwallowed(s, acts, d)
    ensures var db := Run(s, acts).db;
            && C.Count(db.purse.log, CreditKey(WonGrant(d))) <= 1
            && (HasSource(db.books.txns, WonOf(d)) ==> C.Count(db.purse.log, CreditKey(WonGrant(d))) == 1)
  {
    hide Initial, Run, Inv, Single, CreditKey, NoneSwallowed, WonCall, HasSource, WroteAny, C.Count;
    forall n | 0 <= n <= |acts| ensures Single(Run(s, acts[..n]), CreditKey(WonGrant(d))) {
      PrefixSwallowed(s, acts, n, d);
      RunGrants(s, acts[..n], d, opening);
      Reachable(s, acts[..n], opening);
      GrantedIsSingle(Run(s, acts[..n]), d, opening);
    }
    SingleKeyIsUsedOnce(s, acts, CreditKey(WonGrant(d)), opening);
    RunGrants(s, acts, d, opening);
    Reachable(s, acts, opening);
    var e := Run(s, acts);
    if HasSource(e.db.books.txns, WonOf(d)) {
      OneIsWritten(e, d, opening);
    }
  }

  lemma OneIsWritten(s: State, d: string, opening: map<string, int>)
    requires Inv(s, opening) && WroteAny(s.db.purse.log, WonGrant(d))
    ensures C.Count(s.db.purse.log, CreditKey(WonGrant(d))) >= 1
  {
    hide RowsOk, WorkerOk, CreditKey, C.Count;
    ChargesKnown(s.db, s.gate, opening, "", WonGrant(d));
    WroteCounts(s.db.purse.log, WonGrant(d));
  }

  // ----- charge.refunded -----

  /** Every charge.refunded event of the charge carries the one event id. */
  function OneEvent(charge: string, event: string): Job -> bool {
    (job: Job) => job.Refunded? && job.charge == charge ==> job.event == event
  }

  lemma RefundedPoliced(s: State, charge: string, event: string, opening: map<string, int>)
    requires Inv(s, opening) && AllJobs(s, OneEvent(charge, event))
    ensures Policed(s, CreditKey(ChargeReversal(charge)), WebhookId(event))
  {
    hide RowsOk, WorkerOk, CreditKey;
    forall i | i in s.workers && InCredit(s.workers[i].pc) && Key(s.workers[i]) == CreditKey(ChargeReversal(charge))
      ensures Guard(s.workers[i]) == Some(WebhookId(event))
    {
      CreditKeysSeparate(Credit(s.workers[i]).source, ChargeReversal(charge));
      CreditCaller(s.db, s.gate, s.locks, i, s.workers[i]);
      assert OneEvent(charge, event)(s.workers[i].job);
    }
  }

  /** A refunded charge's credits are taken back at most once per event id, however often the event is delivered. */
  lemma RefundedChargeDeductsOnce(s: State, acts: seq<Action>, charge: string, event: string, opening: map<string, int>)
    requires Initial(s, opening) && Spawns(acts, OneEvent(charge, event))
    ensures C.Count(Run(s, acts).db.purse.log, CreditKey(ChargeReversal(charge))) <= 1
  {
    hide Initial, Run, Inv, CreditKey, Policed, AllJobs, OneEvent, C.Count;
    forall n | 0 <= n <= |acts| ensures Policed(Run(s, acts[..n]), CreditKey(ChargeReversal(charge)), WebhookId(event)) {
      Reachable(s, acts[..n], opening);
      PrefixSpawned(acts, n, OneEvent(charge, event));
      RunKeepsJobs(s, acts[..n], OneEvent(charge, event), opening);
      RefundedPoliced(Run(s, acts[..n]), charge, event, opening);
    }
    PolicedKeyIsUsedOnce(s, acts, CreditKey(ChargeReversal(charge)), WebhookId(event), opening);
  }
}
