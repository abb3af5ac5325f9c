/**
 * An approved payment refund can always be finished.
 *
 * From any reachable state, whatever half-done calls, gateway entries and log rows earlier
 * failures have left, one processRefund call that nothing interrupts reaches PROCESSED, once
 * the calls that hold the rows it needs are over.
 */
module Progress {
  import opened Keys
  import opened Engine
  import opened Invariant
  import opened Machine
  import opened Theorems
  import opened Effects
  import opened Reviews
  import G = Gateways
  import L = Ledger
  import C = Credits

  function StepsOf(i: nat, mint: string, n: nat): seq<Action> {
    if n == 0 then [] else StepsOf(i, mint, n - 1) + [Step(i, mint)]
  }

  /** How many statements a payment refund still has before it, at most. */
  function Left(pc: Pc): nat {
    match pc
    case Start => 10
    case CallGateway => 9
    case Check => 8
    case Post => 7
    case Link => 6
    case KeyCheck => 5
    case RowLock => 4
    case Settle => 3
    case Commit => 2
    case Final => 1
    case _ => 0
  }

  function BookKey(id: string): string {
    LedgerKey(RefundOf(id))
  }

  /** Between the account upserts of a ledger step and the end of its transaction. */
  predicate InLedger(w: Worker) {
    PostsLedger(w.job) && (w.pc == Check || w.pc == Post || Posted(w))
  }

  /** The call may have the balance row of an account locked: its open transaction writes it. */
  predicate OnAccount(w: Worker, a: L.Account) {
    InLedger(w) && (Lines(w)[0].account == a || Lines(w)[1].account == a)
  }

  /**
   * The call holds a row that refunding this request waits for: the request's own row, its
   * ledger key, its user's credits row, or the balance row of one of its two accounts. The
   * engine lets postings to one account overlap; the database makes them wait.
   */
  predicate InTheWay(s: State, j: nat, id: string)
    requires id in s.db.refunds
  {
    var user := s.db.refunds[id].user;
    j in s.workers
    && (Holds(s.locks, RefundRow(id), j) || Holds(s.locks, LedgerId(BookKey(id)), j) || Holds(s.locks, CreditsRow(user), j)
        || OnAccount(s.workers[j], Revenue()) || OnAccount(s.workers[j], Asset(user)))
  }

  predicate NeededFree(s: State, i: nat, id: string)
    requires id in s.db.refunds
  {
    Free(s, RefundRow(id), i) && Free(s, LedgerId(BookKey(id)), i) && Free(s, CreditsRow(s.db.refunds[id].user), i)
  }

  /** Nobody but call i holds a row or key that refunding this request needs. */
  ghost predicate Unblocked(s: State, i: nat, id: string)
    requires id in s.db.refunds
  {
    && NeededFree(s, i, id)
    && forall j :: j in s.workers && j != i ==>
         !OnAccount(s.workers[j], Revenue()) && !OnAccount(s.workers[j], Asset(s.db.refunds[id].user))
  }

  ghost predicate Unminted(s: State, mint: string) {
    !L.HasId(s.db.books.txns, mint) && TxnRow(mint) !in s.locks
  }

  predicate Processable(r: Refund) {
    r.kind == PAYMENT && r.status == APPROVED && (r.paymentRefundId.Some? || (r.gateway.Some? && Given(r.charge)))
  }

  /** Call i is refunding the request and is going to get there. */
  ghost predicate OnTrack(s: State, i: nat, id: string, mint: string) {
    && i in s.workers && s.workers[i].job == Process(id) && id in s.db.refunds && s.db.refunds[id].kind == PAYMENT
    && Unblocked(s, i, id)
    && var w := s.workers[i];
       && w.pc != Catch
       && (w.pc == Start ==> Processable(s.db.refunds[id]))
       && (w.pc == Start || w.pc == CallGateway || w.pc == Check || w.pc == Post ==> Unminted(s, mint))
       && (w.pc == Post ==> !L.HasKey(s.db.books.txns, BookKey(id)))
       && (w.pc == Done ==> s.db.refunds[id].status == PROCESSED && forall r :: r in s.locks ==> s.locks[r] != i)
  }

  /** One statement of call i keeps it on track and brings it closer. */
  ghost predicate Closer(s: State, s': State, i: nat, id: string, mint: string) {
    && OnTrack(s', i, id, mint) && i in s.workers
    && (Left(s'.workers[i].pc) < Left(s.workers[i].pc) || s'.workers[i].pc == Done)
  }

  lemma SnapFacts(s: State, i: nat, id: string, opening: map<string, int>)
    requires Inv(s, opening) && i in s.workers && s.workers[i].job == Process(id) && s.workers[i].pc != Start && s.workers[i].pc != Done
    ensures id in s.db.refunds && SameTerms(s.workers[i].snap, s.db.refunds[id]) && s.db.refunds[id].amount > 0
    ensures s.workers[i].pc == CallGateway ==> s.workers[i].snap.gateway.Some? && s.workers[i].snap.charge.Some?
    ensures s.workers[i].pc == Post && s.db.refunds[id].kind == PAYMENT ==> s.workers[i].answer.refundedAmount == s.workers[i].snap.amount
  {
    hide WorkerOk, RefundOk, RowsOk;
    OneWorker(s, i, opening);
    OneSnap(s.db, s.gate, s.locks, i, s.workers[i]);
    RefundFacts(s.db, s.gate, opening, id);
    AmountPositive(s.db, s.gate, id);
  }

  lemma AmountPositive(db: Db, gate: Gate, id: string)
    requires id in db.refunds && RefundOk(db, gate, id)
    ensures db.refunds[id].amount > 0
  {
  }

  lemma OneSnap(db: Db, gate: Gate, locks: map<Resource, nat>, i: nat, w: Worker)
    requires WorkerOk(db, gate, locks, i, w) && w.job.Process? && w.pc != Start && w.pc != Done
    ensures w.job.refund in db.refunds && SameTerms(w.snap, db.refunds[w.job.refund])
    ensures w.pc == CallGateway ==> w.snap.gateway.Some? && w.snap.charge.Some?
    ensures w.pc == Post && w.snap.kind == PAYMENT ==> w.answer.refundedAmount == w.snap.amount
  {
    hide Shape, HoldsOk, AbsentOk, PostOk, LedgerKey, CreditKey, DisputeKey, GatewayPaid, Wrote;
    assert ProcessOk(db, gate, w);
  }

  lemma StartCloser(s: State, i: nat, id: string, mint: string)
    requires OnTrack(s, i, id, mint) && s.workers[i].pc == Start
    ensures Closer(s, DoStart(s, i, s.workers[i]), i, id, mint)
  {
    hide LedgerKey, L.HasId, L.HasKey, Given;
  }

  lemma GatewayCloser(s: State, i: nat, id: string, mint: string, opening: map<string, int>)
    requires Inv(s, opening) && OnTrack(s, i, id, mint) && s.workers[i].pc == CallGateway
    ensures Closer(s, DoCallGateway(s, i, s.workers[i], mint), i, id, mint)
  {
    hide Inv, LedgerKey, CreditKey, L.HasId, L.HasKey, G.AfterRefund, G.Answer;
    SnapFacts(s, i, id, opening);
  }

  lemma CheckCloser(s: State, i: nat, id: string, mint: string)
    requires OnTrack(s, i, id, mint) && s.workers[i].pc == Check
    ensures Closer(s, DoCheck(s, i, s.workers[i]), i, id, mint)
  {
    hide LedgerKey, L.HasId, L.HasKey;
  }

  lemma PostCloser(s: State, i: nat, id: string, mint: string, opening: map<string, int>)
    requires Inv(s, opening) && OnTrack(s, i, id, mint) && s.workers[i].pc == Post
    ensures Closer(s, DoPost(s, i, s.workers[i], mint), i, id, mint)
  {
    hide Inv, LedgerKey, L.HasId, L.HasKey;
    SnapFacts(s, i, id, opening);
  }

  lemma LinkCloser(s: State, i: nat, id: string, mint: string)
    requires OnTrack(s, i, id, mint) && s.workers[i].pc == Link
    ensures Closer(s, DoLink(s, i, s.workers[i]), i, id, mint)
  {
    hide LedgerKey, L.HasId, L.HasKey;
  }

  /** A payment refund goes on to its commit whatever its credits call answers. */
  lemma AfterCreditCloser(s: State, i: nat, id: string, mint: string, ok: bool)
    requires OnTrack(s, i, id, mint) && InCredit(s.workers[i].pc) && s.workers[i].snap.kind == PAYMENT
    ensures Closer(s, AfterCredit(s, i, s.workers[i], ok), i, id, mint)
  {
    hide LedgerKey, L.HasId, L.HasKey;
  }

  lemma KeyCheckCloser(s: State, i: nat, id: string, mint: string)
    requires OnTrack(s, i, id, mint) && s.workers[i].pc == KeyCheck && s.workers[i].snap.kind == PAYMENT
    ensures Closer(s, DoKeyCheck(s, i, s.workers[i]), i, id, mint)
  {
    hide LedgerKey, L.HasId, L.HasKey, C.HasKey, CreditKey, AfterCredit, Credit;
    AfterCreditCloser(s, i, id, mint, true);
    AfterCreditCloser(s, i, id, mint, false);
  }

  lemma RowLockCloser(s: State, i: nat, id: string, mint: string)
    requires OnTrack(s, i, id, mint) && s.workers[i].pc == RowLock && s.workers[i].snap.kind == PAYMENT
    requires s.workers[i].snap.user == s.db.refunds[id].user
    ensures Closer(s, DoRowLock(s, i, s.workers[i]), i, id, mint)
  {
    hide LedgerKey, L.HasId, L.HasKey, CreditKey, AfterCredit, C.Balance;
    AfterCreditCloser(s, i, id, mint, false);
  }

  lemma SettleCloser(s: State, i: nat, id: string, mint: string)
    requires OnTrack(s, i, id, mint) && s.workers[i].pc == Settle && s.workers[i].snap.kind == PAYMENT
    ensures Closer(s, DoSettle(s, i, s.workers[i]), i, id, mint)
  {
    hide LedgerKey, L.HasId, L.HasKey, CreditRow, Credit;
  }

  lemma CreditCloser(s: State, i: nat, id: string, mint: string, opening: map<string, int>)
    requires Inv(s, opening) && OnTrack(s, i, id, mint) && InCredit(s.workers[i].pc)
    ensures Closer(s, Advance(s, i, mint), i, id, mint)
  {
    hide Inv, OnTrack, Closer, DoKeyCheck, DoRowLock, DoSettle;
    TrackedTerms(s, i, id, mint);
    SnapFacts(s, i, id, opening);
    match s.workers[i].pc
    case KeyCheck => KeyCheckCloser(s, i, id, mint);
    case RowLock => RowLockCloser(s, i, id, mint);
    case Settle => SettleCloser(s, i, id, mint);
  }

  lemma TrackedTerms(s: State, i: nat, id: string, mint: string)
    requires OnTrack(s, i, id, mint)
    ensures i in s.workers && s.workers[i].job == Process(id) && id in s.db.refunds && s.db.refunds[id].kind == PAYMENT
  {
    hide Unblocked, Unminted;
  }

  lemma CommitCloser(s: State, i: nat, id: string, mint: string)
    requires OnTrack(s, i, id, mint) && s.workers[i].pc == Commit
    ensures Closer(s, DoCommit(s, i, s.workers[i]), i, id, mint)
  {
    hide LedgerKey, L.HasId, L.HasKey, Booked;
  }

  lemma FinalCloser(s: State, i: nat, id: string, mint: string)
    requires OnTrack(s, i, id, mint) && s.workers[i].pc == Final
    ensures Closer(s, DoFinal(s, i, s.workers[i]), i, id, mint)
  {
    hide LedgerKey, L.HasId, L.HasKey;
  }

  /** The statements of a refund call. */
  lemma RefundShape(s: State, i: nat, id: string, opening: map<string, int>)
    requires Inv(s, opening) && i in s.workers && s.workers[i].job == Process(id) && s.workers[i].pc != Catch
    ensures var pc := s.workers[i].pc;
            pc == Start || pc == CallGateway || pc == Check || pc == Post || pc == Link || InCredit(pc) || pc == Commit || pc == Final || pc == Done
  {
    hide RowsOk, HoldsOk, AbsentOk, PostOk, CallOk;
    assert WorkerOk(s.db, s.gate, s.locks, i, s.workers[i]);
  }

  lemma StepCloser(s: State, i: nat, id: string, mint: string, opening: map<string, int>)
    requires Inv(s, opening) && OnTrack(s, i, id, mint)
    ensures Closer(s, Advance(s, i, mint), i, id, mint)
  {
    hide Inv, Closer, DoStart, DoCallGateway, DoDedup, DoFind, DoInsert, DoCheck, DoPost, DoLink, DoKeyCheck, DoRowLock, DoSettle,
         DoRecord, DoResolve, DoCommit, DoFinal, DoCatch, DoWrite, Unblocked, Unminted, Processable;
    RefundShape(s, i, id, opening);
    match s.workers[i].pc
    case Start => StartCloser(s, i, id, mint);
    case CallGateway => GatewayCloser(s, i, id, mint, opening);
    case Check => CheckCloser(s, i, id, mint);
    case Post => PostCloser(s, i, id, mint, opening);
    case Link => LinkCloser(s, i, id, mint);
    case KeyCheck => CreditCloser(s, i, id, mint, opening);
    case RowLock => CreditCloser(s, i, id, mint, opening);
    case Settle => CreditCloser(s, i, id, mint, opening);
    case Commit => CommitCloser(s, i, id, mint);
    case Final => FinalCloser(s, i, id, mint);
    case Done => StillCloser(s, i, id, mint);
    case _ =>
  }

  lemma StillCloser(s: State, i: nat, id: string, mint: string)
    requires OnTrack(s, i, id, mint) && s.workers[i].pc == Done
    ensures Closer(s, s, i, id, mint)
  {
    hide OnTrack;
    assert OnTrack(s, i, id, mint) ==> i in s.workers by { TrackedWorker(s, i, id, mint); }
  }

  lemma TrackedWorker(s: State, i: nat, id: string, mint: string)
    requires OnTrack(s, i, id, mint)
    ensures i in s.workers
    ensures s.workers[i].pc == Done ==> id in s.db.refunds && s.db.refunds[id].status == PROCESSED
    ensures s.workers[i].pc != Catch
  {
    hide Unblocked, Unminted;
  }

  /** A call on track, run alone for n statements, is over or n statements closer. */
  lemma {:induction false} AloneCloser(s: State, i: nat, id: string, mint: string, n: nat, opening: map<string, int>)
    requires Inv(s, opening) && OnTrack(s, i, id, mint)
    ensures var e := Run(s, StepsOf(i, mint, n));
            && Inv(e, opening) && OnTrack(e, i, id, mint) && i in e.workers && i in s.workers
            && (e.workers[i].pc == Done || Left(e.workers[i].pc) + n <= Left(s.workers[i].pc))
  {
    hide Inv, Do, Advance, OnTrack, Evolves, GateGrows, StepsOf, Run;
    TrackedWorker(s, i, id, mint);
    StepsRun(s, i, mint, n);
    if n > 0 {
      AloneCloser(s, i, id, mint, n - 1, opening);
      var mid := Run(s, StepsOf(i, mint, n - 1));
      StepCloser(mid, i, id, mint, opening);
      StepDoes(mid, i, mint);
      DoGood(mid, Step(i, mint), opening);
      TrackedWorker(Advance(mid, i, mint), i, id, mint);
    }
  }

  lemma StepDoes(s: State, i: nat, mint: string)
    requires i in s.workers
    ensures Do(s, Step(i, mint)) == Advance(s, i, mint)
  {
    hide Advance;
  }

  lemma StepsRun(s: State, i: nat, mint: string, n: nat)
    ensures Run(s, StepsOf(i, mint, n)) == if n == 0 then s else Do(Run(s, StepsOf(i, mint, n - 1)), Step(i, mint))
  {
    hide Do;
    StepsLength(i, mint, n);
    if n > 0 {
      StepsLength(i, mint, n - 1);
      assert StepsOf(i, mint, n)[..n - 1] == StepsOf(i, mint, n - 1);
    }
  }

  lemma {:induction false} StepsLength(i: nat, mint: string, n: nat)
    ensures |StepsOf(i, mint, n)| == n && (n > 0 ==> StepsOf(i, mint, n)[n - 1] == Step(i, mint))
  {
    if n > 0 {
      StepsLength(i, mint, n - 1);
    }
  }

  /** With the rows it needs free, one uninterrupted call takes an approved request to PROCESSED in ten statements. */
  lemma OneCallProcesses(s: State, i: nat, id: string, mint: string, opening: map<string, int>)
    requires Inv(s, opening) && id in s.db.refunds && Processable(s.db.refunds[id])
    requires Unblocked(s, i, id) && i !in s.workers && Unminted(s, mint)
    ensures var e := Run(s, [Spawn(i, Process(id))] + StepsOf(i, mint, 10));
            && id in e.db.refunds && e.db.refunds[id].status == PROCESSED && i in e.workers && e.workers[i].pc == Done
            && RefundRow(id) !in e.locks && (forall j :: j in s.workers ==> j in e.workers && e.workers[j] == s.workers[j])
  {
    hide Inv, Do, Advance, OnTrack, Evolves, GateGrows, Unblocked, Unminted;
    var spawned := Do(s, Spawn(i, Process(id)));
    SpawnOnTrack(s, i, id, mint);
    DoGood(s, Spawn(i, Process(id)), opening);
    AloneCloser(spawned, i, id, mint, 10, opening);
    RunSplit(s, [Spawn(i, Process(id))], StepsOf(i, mint, 10));
    RunOne(s, Spawn(i, Process(id)));
    var e := Run(spawned, StepsOf(i, mint, 10));
    TrackedWorker(e, i, id, mint);
    TrackedTerms(e, i, id, mint);
    NothingLeft(e, i, id, opening);
    HoldsNothing(e, i, id, mint);
    AloneLeavesOthers(spawned, i, mint, 10, opening);
    SpawnsOne(s, i, Process(id));
  }

  lemma SpawnsOne(s: State, i: nat, job: Job)
    requires i !in s.workers
    ensures Do(s, Spawn(i, job)) == Move(s, i, Begin(job))
  {
  }

  lemma HoldsNothing(s: State, i: nat, id: string, mint: string)
    requires OnTrack(s, i, id, mint) && i in s.workers && s.workers[i].pc == Done
    ensures RefundRow(id) !in s.locks
  {
    hide LedgerKey, OnAccount;
  }

  /** The statements of one call leave every other call where it is. */
  lemma {:induction false} AloneLeavesOthers(s: State, i: nat, mint: string, n: nat, opening: map<string, int>)
    requires Inv(s, opening) && i in s.workers
    ensures var e := Run(s, StepsOf(i, mint, n));
            Inv(e, opening) && i in e.workers && forall j :: j in s.workers && j != i ==> j in e.workers && e.workers[j] == s.workers[j]
  {
    hide Inv, Do, Advance, StepsOf, Run, Owned, Evolves, GateGrows;
    StepsRun(s, i, mint, n);
    if n > 0 {
      AloneLeavesOthers(s, i, mint, n - 1, opening);
      var mid := Run(s, StepsOf(i, mint, n - 1));
      StepDoes(mid, i, mint);
      StepIsOwned(mid, i, mint, opening);
      DoGood(mid, Step(i, mint), opening);
    }
  }

  lemma NothingLeft(s: State, i: nat, id: string, opening: map<string, int>)
    requires Inv(s, opening) && i in s.workers && s.workers[i].job == Process(id) && s.workers[i].pc != Catch && Left(s.workers[i].pc) == 0
    ensures s.workers[i].pc == Done
  {
    hide Inv;
    RefundShape(s, i, id, opening);
  }

  lemma SpawnOnTrack(s: State, i: nat, id: string, mint: string)
    requires id in s.db.refunds && Processable(s.db.refunds[id])
    requires Unblocked(s, i, id) && i !in s.workers && Unminted(s, mint)
    ensures OnTrack(Do(s, Spawn(i, Process(id))), i, id, mint)
    ensures var s' := Do(s, Spawn(i, Process(id))); i in s'.workers && s'.workers[i].pc == Start
  {
    hide LedgerKey, L.HasId, L.HasKey;
  }

  // ----- Calls in the way -----

  /** End these calls, in some order. */
  ghost function Ending(js: set<nat>): (acts: seq<Action>)
    ensures forall k :: 0 <= k < |acts| ==> acts[k].Crash? && acts[k].worker in js
  {
    if js == {} then []
    else
      var j :| j in js; Ending(js - {j}) + [Crash(j)]
  }

  /** They are over and hold nothing; nothing else has changed. */
  ghost predicate Ended(s: State, e: State, js: set<nat>) {
    && e.db == s.db && e.gate == s.gate && e.workers.Keys == s.workers.Keys
    && (forall j :: j in s.workers ==> if j in js then e.workers[j].pc == Done else e.workers[j] == s.workers[j])
    && (forall r :: r in e.locks ==> r in s.locks && e.locks[r] == s.locks[r] && e.locks[r] !in js)
  }

  lemma OneMoreEnded(s: State, mid: State, js: set<nat>, j: nat)
    requires Ended(s, mid, js) && j in s.workers
    ensures Ended(s, Do(mid, Crash(j)), js + {j})
  {
  }

  lemma {:induction false} EndingEnds(s: State, js: set<nat>, opening: map<string, int>)
    requires Inv(s, opening) && js <= s.workers.Keys
    ensures Inv(Run(s, Ending(js)), opening) && Ended(s, Run(s, Ending(js)), js)
  {
    hide Inv, Do, Evolves, GateGrows, Ended;
    if js == {} {
      NothingEnded(s);
    } else {
      var j :| j in js && Ending(js) == Ending(js - {j}) + [Crash(j)];
      EndingEnds(s, js - {j}, opening);
      var mid := Run(s, Ending(js - {j}));
      RunSnoc(s, Ending(js - {j}), Crash(j));
      OneMoreEnded(s, mid, js - {j}, j);
      DoGood(mid, Crash(j), opening);
      assert js - {j} + {j} == js;
    }
  }

  lemma NothingEnded(s: State)
    ensures Ended(s, s, {})
  {
  }

  /** End every call that is in the way of refunding this request. */
  ghost function Clearing(s: State, id: string): (acts: seq<Action>)
    requires id in s.db.refunds
    ensures forall k :: 0 <= k < |acts| ==> acts[k].Crash? && InTheWay(s, acts[k].worker, id)
  {
    Ending(set j | j in s.workers && InTheWay(s, j, id))
  }

  lemma EndedLeavesAccounts(s: State, e: State, js: set<nat>, id: string)
    requires id in s.db.refunds && Ended(s, e, js)
    requires forall j :: j in s.workers && InTheWay(s, j, id) ==> j in js
    ensures forall j :: j in e.workers ==>
              !OnAccount(e.workers[j], Revenue()) && !OnAccount(e.workers[j], Asset(s.db.refunds[id].user))
  {
    hide LedgerKey, Lines;
    forall j | j in e.workers
      ensures !OnAccount(e.workers[j], Revenue()) && !OnAccount(e.workers[j], Asset(s.db.refunds[id].user))
    {
      assert j in s.workers && (InTheWay(s, j, id) ==> j in js);
    }
  }

  lemma EndedUnblocks(s: State, e: State, js: set<nat>, id: string, i: nat)
    requires id in s.db.refunds && Ended(s, e, js) && (forall r :: r in s.locks ==> s.locks[r] in s.workers)
    requires forall j :: j in s.workers && InTheWay(s, j, id) ==> j in js
    ensures Unblocked(e, i, id)
  {
    hide LedgerKey, Lines, OnAccount;
    if RefundRow(id) in s.locks { assert InTheWay(s, s.locks[RefundRow(id)], id); }
    if LedgerId(BookKey(id)) in s.locks { assert InTheWay(s, s.locks[LedgerId(BookKey(id))], id); }
    var row := CreditsRow(s.db.refunds[id].user);
    if row in s.locks { assert InTheWay(s, s.locks[row], id); }
    EndedLeavesAccounts(s, e, js, id);
  }

  lemma Cleared(s: State, id: string, i: nat, mint: string, opening: map<string, int>)
    requires Inv(s, opening) && id in s.db.refunds && i !in s.workers && Unminted(s, mint)
    ensures var e := Run(s, Clearing(s, id));
            Inv(e, opening) && e.db == s.db && i !in e.workers && Unminted(e, mint) && Unblocked(e, i, id)
  {
    hide RowsOk, WorkerOk, Do, Run, L.HasId, InTheWay, Unblocked;
    var js := set j | j in s.workers && InTheWay(s, j, id);
    EndingEnds(s, js, opening);
    EndedUnblocks(s, Run(s, Clearing(s, id)), js, id, i);
  }

  /**
   * Progress. In any reachable state, an APPROVED PAYMENT request that was booked before, or
   * that names a gateway and a charge, can be finished: end the calls that hold a row it waits
   * for, and run one processRefund call on it; ten statements later it is PROCESSED.
   */
  lemma ApprovedRefundCanFinish(s: State, past: seq<Action>, i: nat, id: string, mint: string,
      opening: map<string, int>)
    requires Initial(s, opening) && id in Run(s, past).db.refunds && Processable(Run(s, past).db.refunds[id])
    requires i !in Run(s, past).workers && Unminted(Run(s, past), mint)
    ensures var e := Run(s, past + Clearing(Run(s, past), id) + ([Spawn(i, Process(id))] + StepsOf(i, mint, 10)));
            id in e.db.refunds && e.db.refunds[id].status == PROCESSED && e.db.refunds[id].paymentRefundId.Some?
  {
    hide Inv, Initial, Do, Advance, Evolves, GateGrows, Run, L.HasId, LedgerKey, Clearing;
    var now := Run(s, past);
    Reachable(s, past, opening);
    Cleared(now, id, i, mint, opening);
    var clear := Run(now, Clearing(now, id));
    OneCallProcesses(clear, i, id, mint, opening);
    var call := [Spawn(i, Process(id))] + StepsOf(i, mint, 10);
    RunSplit(s, past, Clearing(now, id));
    RunSplit(s, past + Clearing(now, id), call);
    ReachableFrom(clear, call, opening);
    EndFacts(Run(clear, call), id, clear, opening);
  }

  lemma EndFacts(e: State, id: string, before: State, opening: map<string, int>)
    requires Inv(e, opening) && id in before.db.refunds && before.db.refunds[id].kind == PAYMENT
    ensures id in e.db.refunds && e.db.refunds[id].kind == PAYMENT && e.db.refunds[id].status == PROCESSED ==> e.db.refunds[id].paymentRefundId.Some?
    ensures Evolves(before.db, e.db) ==> id in e.db.refunds && e.db.refunds[id].kind == PAYMENT
  {
    hide WorkerOk, GatewayPaid, HasSource, Wrote;
    if id in e.db.refunds {
      assert RefundOk(e.db, e.gate, id);
    }
  }
}
