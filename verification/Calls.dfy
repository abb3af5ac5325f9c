/**
 * One call that nothing overlaps, run through the engine.
 *
 * The service classes execute whole calls. Here each call is described by what it leaves
 * behind, given the ids it mints and the statements at which it throws, and each description
 * is shown to be what the engine's own steps arrive at. So whatever holds in every run of
 * the engine holds of the service classes.
 */
module Calls {
  import opened Prelude
  import opened Keys
  import opened Engine
  import opened Invariant
  import opened Machine
  import opened Theorems
  import L = Ledger
  import C = Credits

  /** The random ids a call would mint, one for each place that mints one. */
  datatype Mints = Mints(refund: string, txn: string, dispute: string) {
    function At(pc: Pc): string {
      match pc case CallGateway => refund case Insert => dispute case _ => txn
    }
  }

  /**
   * Whether the statement throws. A throw anywhere inside the credits call rolls that call
   * back whole, so its first statement stands for all of them.
   */
  predicate Throws(throws: set<Pc>, pc: Pc) {
    pc in throws && pc != RowLock && pc != Settle && pc != Done
  }

  /** Where a call runs: its number, the calls there already are, and the required depth. */
  datatype Place = Place(call: nat, others: map<nat, Worker>, required: int)

  /** The next statement of the call, taken or thrown. */
  function Choice(s: State, at: Place, m: Mints, throws: set<Pc>): Action {
    if at.call in s.workers && Throws(throws, s.workers[at.call].pc) then FailCall(at.call)
    else Step(at.call, if at.call in s.workers then m.At(s.workers[at.call].pc) else "")
  }

  ghost function Next(s: State, at: Place, m: Mints, throws: set<Pc>): State {
    if at.call !in s.workers then s
    else if Throws(throws, s.workers[at.call].pc) then Throw(s, at.call)
    else Advance(s, at.call, m.At(s.workers[at.call].pc))
  }

  ghost function After(s: State, at: Place, m: Mints, throws: set<Pc>, n: nat): State {
    if n == 0 then s else Next(After(s, at, m, throws, n - 1), at, m, throws)
  }

  ghost predicate Leads(s: State, t: State, at: Place, m: Mints, throws: set<Pc>) {
    exists n: nat :: After(s, at, m, throws, n) == t
  }

  /** A state in which only the call at this place may hold anything. */
  function Lone(db: Db, gate: Gate, locks: map<Resource, nat>, w: Worker, at: Place): State {
    State(db, gate, locks, at.others[at.call := w], at.required)
  }

  ghost predicate CompletesAt(at: Place, db: Db, gate: Gate, job: Job, m: Mints, throws: set<Pc>, db': Db, gate': Gate) {
    exists w: Worker ::
      w.pc == Done && Leads(Lone(db, gate, map[], Begin(job), at), Lone(db', gate', map[], w, at), at, m, throws)
  }

  predicate New(at: Place, required: int) {
    at.required == required && at.call !in at.others
  }

  /**
   * Started as a new call where nothing is held, whatever calls there were before, the job
   * runs to its end and leaves these rows and nothing held.
   */
  ghost predicate Completes(db: Db, gate: Gate, required: int, job: Job, m: Mints, throws: set<Pc>, db': Db, gate': Gate) {
    forall at: Place :: New(at, required) ==> CompletesAt(at, db, gate, job, m, throws, db', gate')
  }

  // ----- Chains of steps -----

  lemma LeadsNow(s: State, at: Place, m: Mints, throws: set<Pc>)
    ensures Leads(s, s, at, m, throws)
  {
    hide Next;
    assert After(s, at, m, throws, 0) == s;
  }

  lemma LeadsStep(s: State, t: State, at: Place, m: Mints, throws: set<Pc>)
    requires Leads(s, t, at, m, throws)
    ensures Leads(s, Next(t, at, m, throws), at, m, throws)
  {
    hide Next;
    var n: nat :| After(s, at, m, throws, n) == t;
    assert After(s, at, m, throws, n + 1) == Next(t, at, m, throws);
  }

  lemma {:induction false} AfterOn(s: State, at: Place, m: Mints, throws: set<Pc>, n: nat, k: nat)
    ensures After(After(s, at, m, throws, n), at, m, throws, k) == After(s, at, m, throws, n + k)
  {
    hide Next;
    if k > 0 {
      AfterOn(s, at, m, throws, n, k - 1);
    }
  }

  /** A finished call goes nowhere, so what a call leaves is determined. */
  lemma {:induction false} DoneStays(s: State, at: Place, m: Mints, throws: set<Pc>, k: nat)
    requires at.call in s.workers && s.workers[at.call].pc == Done
    ensures After(s, at, m, throws, k) == s
  {
    if k > 0 {
      DoneStays(s, at, m, throws, k - 1);
    }
  }

  lemma FinishedAlike(s: State, at: Place, m: Mints, throws: set<Pc>, n: nat, k: nat)
    requires at.call in After(s, at, m, throws, n).workers && After(s, at, m, throws, n).workers[at.call].pc == Done
    requires n <= k
    ensures After(s, at, m, throws, k) == After(s, at, m, throws, n)
  {
    hide Next;
    AfterOn(s, at, m, throws, n, k - n);
    DoneStays(After(s, at, m, throws, n), at, m, throws, k - n);
  }

  lemma CompletesOneWay(db: Db, gate: Gate, required: int, job: Job, m: Mints, throws: set<Pc>, db1: Db, gate1: Gate,
      db2: Db, gate2: Gate)
    requires Completes(db, gate, required, job, m, throws, db1, gate1)
    requires Completes(db, gate, required, job, m, throws, db2, gate2)
    ensures db1 == db2 && gate1 == gate2
  {
    hide Next, After;
    var at := Place(0, map[], required);
    assert CompletesAt(at, db, gate, job, m, throws, db1, gate1) && CompletesAt(at, db, gate, job, m, throws, db2, gate2);
    var s := Lone(db, gate, map[], Begin(job), at);
    var v: Worker :| v.pc == Done && Leads(s, Lone(db1, gate1, map[], v, at), at, m, throws);
    var w: Worker :| w.pc == Done && Leads(s, Lone(db2, gate2, map[], w, at), at, m, throws);
    var n: nat :| After(s, at, m, throws, n) == Lone(db1, gate1, map[], v, at);
    var k: nat :| After(s, at, m, throws, k) == Lone(db2, gate2, map[], w, at);
    if n <= k { FinishedAlike(s, at, m, throws, n, k); } else { FinishedAlike(s, at, m, throws, k, n); }
  }

  // ----- Every completed call is a run of the engine -----

  lemma NextIsDone(s: State, at: Place, m: Mints, throws: set<Pc>)
    ensures Next(s, at, m, throws) == Do(s, Choice(s, at, m, throws))
  {
    hide Advance, Throw;
  }

  /** The statements of a call, one after the other, are a run. */
  lemma {:induction false} AfterIsRun(s: State, at: Place, m: Mints, throws: set<Pc>, n: nat)
    returns (acts: seq<Action>)
    ensures |acts| == n && After(s, at, m, throws, n) == Run(s, acts)
    ensures forall k :: 0 <= k < n ==> acts[k] == FailCall(at.call) || (acts[k].Step? && acts[k].worker == at.call)
  {
    hide Do, Next;
    if n == 0 {
      acts := [];
    } else {
      var before := AfterIsRun(s, at, m, throws, n - 1);
      var mid := After(s, at, m, throws, n - 1);
      NextIsDone(mid, at, m, throws);
      acts := before + [Choice(mid, at, m, throws)];
      assert acts[..n - 1] == before;
    }
  }

  /** Some run of the engine from an initial state ends with these rows, and nothing is held then. */
  ghost predicate Reached(db: Db, gate: Gate, required: int, opening: map<string, int>) {
    exists s: State, acts: seq<Action> :: Initial(s, opening) && Ends(s, acts, db, gate, required)
  }

  ghost predicate Ends(s: State, acts: seq<Action>, db: Db, gate: Gate, required: int) {
    var e := Run(s, acts);
    e.db == db && e.gate == gate && e.locks == map[] && e.required == required
  }

  /** A number no call has. */
  lemma {:induction false} Bound(ids: set<nat>) returns (n: nat)
    ensures forall i :: i in ids ==> i < n
    decreases |ids|
  {
    if ids == {} {
      n := 0;
    } else {
      var i :| i in ids;
      var k := Bound(ids - {i});
      n := if i < k then k else i + 1;
      assert forall x :: x in ids ==> x == i || x in ids - {i};
    }
  }

  /** A call that completes from the end of a run extends it: calls one after the other are one run. */
  lemma CompletedExtends(s: State, acts: seq<Action>, db: Db, gate: Gate, required: int, job: Job, m: Mints, throws: set<Pc>,
      db': Db, gate': Gate)
    returns (more: seq<Action>)
    requires Ends(s, acts, db, gate, required) && Completes(db, gate, required, job, m, throws, db', gate')
    ensures Ends(s, acts + more, db', gate', required)
    ensures more != [] && more[0].Spawn? && more[0].job == job && forall k :: 1 <= k < |more| ==> !more[k].Spawn?
  {
    hide Do, Next, Run;
    var e := Run(s, acts);
    var i := Bound(e.workers.Keys);
    var at := Place(i, e.workers, required);
    assert New(at, required) && CompletesAt(at, db, gate, job, m, throws, db', gate');
    var begun := Lone(db, gate, map[], Begin(job), at);
    SpawnsLone(e, i, job);
    RunOne(e, Spawn(i, job));
    var w: Worker :| w.pc == Done && Leads(begun, Lone(db', gate', map[], w, at), at, m, throws);
    var n: nat :| After(begun, at, m, throws, n) == Lone(db', gate', map[], w, at);
    var rest := AfterIsRun(begun, at, m, throws, n);
    more := [Spawn(i, job)] + rest;
    RunSplit(e, [Spawn(i, job)], rest);
    RunSplit(s, acts, more);
  }

  lemma SpawnsLone(e: State, i: nat, job: Job)
    requires i !in e.workers
    ensures Do(e, Spawn(i, job)) == State(e.db, e.gate, e.locks, e.workers[i := Begin(job)], e.required)
  {
  }

  lemma CompletedReached(db: Db, gate: Gate, required: int, job: Job, m: Mints, throws: set<Pc>, db': Db, gate': Gate,
      opening: map<string, int>)
    requires Reached(db, gate, required, opening) && Completes(db, gate, required, job, m, throws, db', gate')
    ensures Reached(db', gate', required, opening)
  {
    hide Ends, Completes, Initial;
    var s: State, acts: seq<Action> :| Initial(s, opening) && Ends(s, acts, db, gate, required);
    var more := CompletedExtends(s, acts, db, gate, required, job, m, throws, db', gate');
  }

  /** A single action that holds nothing extends it too. */
  lemma DoneReached(db: Db, gate: Gate, required: int, a: Action, opening: map<string, int>)
    requires Reached(db, gate, required, opening) && (a.Create? || a.RegisterCharge?)
    ensures var e := Do(State(db, gate, map[], map[], required), a); Reached(e.db, e.gate, required, opening)
  {
    hide Initial, Accepted;
    var s: State, acts: seq<Action> :| Initial(s, opening) && Ends(s, acts, db, gate, required);
    RunSnoc(s, acts, a);
    var e := Do(State(db, gate, map[], map[], required), a);
    assert Ends(s, acts + [a], e.db, e.gate, required);
  }

  lemma ReachedRowsOk(db: Db, gate: Gate, required: int, opening: map<string, int>)
    requires Reached(db, gate, required, opening)
    ensures RowsOk(db, gate, opening)
  {
    hide Initial, RowsOk, WorkerOk, Run;
    var s: State, acts: seq<Action> :| Initial(s, opening) && Ends(s, acts, db, gate, required);
    Reachable(s, acts, opening);
  }

  /** A completed call keeps the rows sound. */
  lemma CompletedRowsOk(db: Db, gate: Gate, required: int, job: Job, m: Mints, throws: set<Pc>, db': Db, gate': Gate,
      opening: map<string, int>)
    requires RowsOk(db, gate, opening) && Completes(db, gate, required, job, m, throws, db', gate')
    ensures RowsOk(db', gate', opening) && Evolves(db, db')
  {
    hide RowsOk, WorkerOk, Evolves, GateGrows, Run, Completes;
    var s := State(db, gate, map[], map[], required);
    RunNone(s);
    assert Ends(s, [], db, gate, required);
    var more := CompletedExtends(s, [], db, gate, required, job, m, throws, db', gate');
    assert [] + more == more;
    assert Inv(s, opening);
    ReachableFrom(s, more, opening);
  }

  // ----- Statements of a lone call -----

  ghost predicate Mine(at: Place, locks: map<Resource, nat>) {
    forall r :: r in locks ==> locks[r] == at.call
  }

  lemma LoneMoves(db: Db, gate: Gate, locks: map<Resource, nat>, w: Worker, w': Worker, at: Place)
    requires Mine(at, locks)
    ensures Move(Lone(db, gate, locks, w, at), at.call, w') == Lone(db, gate, locks, w', at)
    ensures Finish(Lone(db, gate, locks, w, at), at.call, w') == Lone(db, gate, map[], w'.(pc := Done, post := None, record := None), at)
    ensures Fail(Lone(db, gate, locks, w, at), at.call, w')
         == Lone(db, gate, map[], w'.(pc := if w'.job.Process? then Catch else Done, post := None, record := None), at)
    ensures DoCommit(Lone(db, gate, locks, w, at), at.call, w')
         == Lone(Committed(db, w'), gate, map[], w'.(pc := if w'.job.Process? then Final else Done, post := None, record := None), at)
    ensures forall r :: Free(Lone(db, gate, locks, w, at), r, at.call)
  {
    hide Committed;
    assert Released(locks, at.call) == map[];
  }

  /** What a credits call leaves, and whether it succeeds. */
  ghost predicate CreditSucceeds(p: C.Purse, c: CreditCall, throws: set<Pc>) {
    && !(KeyCheck in throws) && c.amount > 0
    && (C.HasKey(p.log, CreditKey(c.source)) || c.grant || C.Balance(p.balances, c.user) >= c.amount)
  }

  ghost function Credited(p: C.Purse, c: CreditCall, throws: set<Pc>): C.Purse {
    if CreditSucceeds(p, c, throws) && !C.HasKey(p.log, CreditKey(c.source))
    then C.Apply(p, C.CreditTxn(c.user, if c.grant then c.amount else -c.amount, c.kind, Some(CreditKey(c.source)), Some(c.source)))
    else p
  }

  lemma SameCredit(w: Worker, pc: Pc, bal: int)
    ensures Credit(w.(pc := pc, bal := bal)) == Credit(w) && Credit(w.(pc := pc)) == Credit(w)
  {
  }

  /** How a lone credits call answers. */
  ghost function Answered(db: Db, gate: Gate, locks: map<Resource, nat>, w: Worker, at: Place, ok: bool): State {
    match AfterCreditPc(w, ok)
    case Some(pc) => Lone(db, gate, locks, w.(pc := pc), at)
    case None => Lone(db, gate, map[], w.(pc := if w.job.Process? then Catch else Done, post := None, record := None), at)
  }

  lemma LoneKeyCheck(db: Db, gate: Gate, locks: map<Resource, nat>, w: Worker, at: Place, m: Mints, throws: set<Pc>)
    requires Mine(at, locks) && w.pc == KeyCheck
    ensures Next(Lone(db, gate, locks, w, at), at, m, throws)
         == if KeyCheck in throws || Credit(w).amount <= 0 then Answered(db, gate, locks, w, at, false)
            else if C.HasKey(db.purse.log, Key(w)) then Answered(db, gate, locks, w, at, true)
            else Lone(db, gate, locks, w.(pc := RowLock), at)
  {
    hide CreditKey, C.HasKey, Credit, AfterCredit, Answered;
    LoneMoves(db, gate, locks, w, w.(pc := RowLock), at);
    LoneAfterCredit(db, gate, locks, w, w, at, true);
    LoneAfterCredit(db, gate, locks, w, w, at, false);
  }

  lemma LoneRowLock(db: Db, gate: Gate, locks: map<Resource, nat>, w: Worker, at: Place, m: Mints, throws: set<Pc>)
    requires Mine(at, locks) && w.pc == RowLock
    ensures var c := Credit(w);
            Next(Lone(db, gate, locks, w, at), at, m, throws)
            == if !c.grant && C.Balance(db.purse.balances, c.user) < c.amount then Answered(db, gate, locks, w, at, false)
               else Lone(db, gate, locks[CreditsRow(c.user) := at.call], w.(bal := C.Balance(db.purse.balances, c.user), pc := Settle), at)
  {
    hide CreditKey, C.HasKey, Credit, AfterCredit, Answered, C.Balance, DoRowLock;
    RowLockLone(db, gate, locks, w, at);
    LoneAfterCredit(db, gate, locks, w, w, at, false);
  }

  lemma LoneSettle(db: Db, gate: Gate, locks: map<Resource, nat>, w: Worker, at: Place, m: Mints, throws: set<Pc>)
    requires Mine(at, locks) && w.pc == Settle && CreditsRow(Credit(w).user) !in locks && w.bal == C.Balance(db.purse.balances, Credit(w).user)
    ensures Next(Lone(db, gate, locks[CreditsRow(Credit(w).user) := at.call], w, at), at, m, throws)
         == Answered(db.(purse := C.Apply(db.purse, CreditRow(w))), gate, locks, w, at, true)
  {
    hide CreditKey, C.HasKey, Credit, AfterCredit, Answered, C.Balance, DoSettle, CreditRow, C.Apply;
    SettleLone(db, gate, locks, w, at);
    LoneAfterCredit(db.(purse := C.Apply(db.purse, CreditRow(w))), gate, locks, w, w, at, true);
  }

  lemma SameAnswer(db: Db, gate: Gate, locks: map<Resource, nat>, w: Worker, at: Place, ok: bool, pc: Pc)
    ensures Answered(db, gate, locks, w.(pc := pc), at, ok) == Answered(db, gate, locks, w, at, ok)
  {
  }

  /** A lone call that reaches its credits call comes out of it with the purse so changed. */
  lemma CreditLeads(s: State, db: Db, gate: Gate, locks: map<Resource, nat>, w: Worker, at: Place, m: Mints,
      throws: set<Pc>)
    returns (bal: int)
    requires Mine(at, locks) && w.pc == KeyCheck && CreditsRow(Credit(w).user) !in locks
    requires Leads(s, Lone(db, gate, locks, w, at), at, m, throws)
    ensures Leads(s, Answered(db.(purse := Credited(db.purse, Credit(w), throws)), gate, locks, w.(bal := bal), at,
                              CreditSucceeds(db.purse, Credit(w), throws)), at, m, throws)
  {
    hide Leads, CreditKey, C.HasKey, C.Balance, Credit, Answered, Next, C.Apply;
    bal := w.bal;
    LeadsStep(s, Lone(db, gate, locks, w, at), at, m, throws);
    LoneKeyCheck(db, gate, locks, w, at, m, throws);
    if !(KeyCheck in throws) && Credit(w).amount > 0 && !C.HasKey(db.purse.log, Key(w)) {
      var w1 := w.(pc := RowLock);
      SameCredit(w, RowLock, bal);
      LeadsStep(s, Lone(db, gate, locks, w1, at), at, m, throws);
      LoneRowLock(db, gate, locks, w1, at, m, throws);
      if CreditSucceeds(db.purse, Credit(w), throws) {
        bal := C.Balance(db.purse.balances, Credit(w).user);
        var w2 := w.(pc := Settle, bal := bal);
        SameCredit(w, Settle, bal);
        LeadsStep(s, Lone(db, gate, locks[CreditsRow(Credit(w).user) := at.call], w2, at), at, m, throws);
        LoneSettle(db, gate, locks, w2, at, m, throws);
        SameAnswer(db.(purse := C.Apply(db.purse, CreditRow(w2))), gate, locks, w.(bal := bal), at, true, Settle);
      } else {
        SameAnswer(db, gate, locks, w, at, false, RowLock);
      }
    }
  }

  lemma LoneAfterCredit(db: Db, gate: Gate, locks: map<Resource, nat>, v: Worker, w: Worker, at: Place, ok: bool)
    requires Mine(at, locks)
    ensures AfterCredit(Lone(db, gate, locks, v, at), at.call, w, ok) == Answered(db, gate, locks, w, at, ok)
  {
    hide Released, AfterCreditPc;
    var pc := if AfterCreditPc(w, ok).Some? then AfterCreditPc(w, ok).value else Done;
    LoneMoves(db, gate, locks, v, w.(pc := pc), at);
    LoneMoves(db, gate, locks, v, w, at);
  }

  lemma RowLockLone(db: Db, gate: Gate, locks: map<Resource, nat>, w: Worker, at: Place)
    requires Mine(at, locks) && w.pc == RowLock
    ensures var c := Credit(w);
            DoRowLock(Lone(db, gate, locks, w, at), at.call, w)
            == if !c.grant && C.Balance(db.purse.balances, c.user) < c.amount then AfterCredit(Lone(db, gate, locks, w, at), at.call, w, false)
               else Lone(db, gate, locks[CreditsRow(c.user) := at.call], w.(bal := C.Balance(db.purse.balances, c.user), pc := Settle), at)
  {
    hide Credit, C.Balance, AfterCredit;
  }

  lemma SettleLone(db: Db, gate: Gate, locks: map<Resource, nat>, w: Worker, at: Place)
    requires Mine(at, locks) && w.pc == Settle && CreditsRow(Credit(w).user) !in locks && w.bal == C.Balance(db.purse.balances, Credit(w).user)
    ensures DoSettle(Lone(db, gate, locks[CreditsRow(Credit(w).user) := at.call], w, at), at.call, w)
         == AfterCredit(Lone(db.(purse := C.Apply(db.purse, CreditRow(w))), gate, locks, w, at), at.call, w, true)
  {
    hide Credit, C.Balance, AfterCredit;
    assert Drop(locks[CreditsRow(Credit(w).user) := at.call], CreditsRow(Credit(w).user)) == locks;
  }

  /** The statement throws, outside a credits call: whatever is open is rolled back. */
  lemma LoneThrow(db: Db, gate: Gate, locks: map<Resource, nat>, w: Worker, at: Place, m: Mints, throws: set<Pc>)
    requires Mine(at, locks) && w.pc in throws && !InCredit(w.pc) && w.pc != Done
    ensures Next(Lone(db, gate, locks, w, at), at, m, throws)
         == if w.pc == Start || w.pc == Final || w.pc == Catch || w.pc == Write
            then Lone(db, gate, map[], w.(pc := Done, post := None, record := None), at)
            else Lone(db, gate, map[], w.(pc := if w.job.Process? then Catch else Done, post := None, record := None), at)
  {
    hide Finish, Fail, AfterCredit;
    LoneMoves(db, gate, locks, w, w, at);
  }

  // ----- The ledger step -----

  ghost predicate LedgerSucceeds(books: L.Books, source: LedgerSource, amount: int, throws: set<Pc>) {
    !(Check in throws) && (L.HasKey(books.txns, LedgerKey(source)) || (amount > 0 && !(Post in throws)))
  }

  /** The two account upserts and the posting, unless the key was posted before. */
  ghost function Recorded(books: L.Books, source: LedgerSource, lines: seq<L.Entry>, txn: string): L.Books
    requires |lines| == 2
  {
    var b := L.Ensure(L.Ensure(books, lines[0].account), lines[1].account);
    if L.HasKey(books.txns, LedgerKey(source)) then b else L.Append(b, L.Txn(txn, Some(LedgerKey(source)), Some(source), lines))
  }

  /** A call after its ledger step. */
  ghost function AfterLedger(books: L.Books, w: Worker, txn: string): Worker {
    if L.HasKey(books.txns, LedgerKey(Source(w)))
    then w.(txnId := IdByKey(books.txns, LedgerKey(Source(w))), pc := AfterPost(w.job))
    else w.(txnId := txn, pc := AfterPost(w.job), post := Some(L.Txn(txn, Some(LedgerKey(Source(w))), Some(Source(w)), Lines(w))))
  }

  ghost function LedgerLocks(at: Place, books: L.Books, locks: map<Resource, nat>, w: Worker, txn: string): map<Resource, nat> {
    if L.HasKey(books.txns, LedgerKey(Source(w))) then locks else locks[LedgerId(LedgerKey(Source(w))) := at.call][TxnRow(txn) := at.call]
  }

  lemma LonePost(db: Db, gate: Gate, locks: map<Resource, nat>, w: Worker, at: Place, m: Mints, throws: set<Pc>)
    requires Mine(at, locks) && w.pc == Post && !(Post in throws) && LineAmount(w) > 0
    requires !L.HasKey(db.books.txns, LedgerKey(Source(w))) && !L.HasId(db.books.txns, m.txn) && TxnRow(m.txn) !in locks
    ensures Next(Lone(db, gate, locks, w, at), at, m, throws)
         == Lone(db, gate, LedgerLocks(at, db.books, locks, w, m.txn), AfterLedger(db.books, w, m.txn), at)
  {
    hide LedgerKey, Lines, Source, LineAmount, L.HasKey, L.HasId;
  }

  lemma LonePostRefused(db: Db, gate: Gate, locks: map<Resource, nat>, w: Worker, at: Place, m: Mints,
      throws: set<Pc>)
    requires Mine(at, locks) && w.pc == Post && !(Post in throws) && LineAmount(w) <= 0
    ensures Next(Lone(db, gate, locks, w, at), at, m, throws)
         == Lone(db, gate, map[], w.(pc := if w.job.Process? then Catch else Done, post := None, record := None), at)
  {
    hide LedgerKey, Lines, Source, LineAmount, L.HasKey, L.HasId, Fail;
    LoneMoves(db, gate, locks, w, w, at);
  }

  lemma LoneCheck(db: Db, gate: Gate, locks: map<Resource, nat>, w: Worker, at: Place, m: Mints, throws: set<Pc>)
    requires Mine(at, locks) && w.pc == Check && !(Check in throws)
    ensures Next(Lone(db, gate, locks, w, at), at, m, throws)
         == Lone(db, gate, locks,
                 if L.HasKey(db.books.txns, LedgerKey(Source(w))) then AfterLedger(db.books, w, m.txn) else w.(pc := Post), at)
  {
    hide LedgerKey, Lines, Source, LineAmount, L.HasKey, L.HasId;
  }

  /** A lone call that reaches its ledger step either gets through it or is rolled back. */
  lemma LedgerLeads(s: State, db: Db, gate: Gate, locks: map<Resource, nat>, w: Worker, at: Place, m: Mints,
      throws: set<Pc>)
    requires Mine(at, locks) && w.pc == Check && w.post.None? && w.record.None?
    requires !L.HasId(db.books.txns, m.txn) && TxnRow(m.txn) !in locks
    requires Leads(s, Lone(db, gate, locks, w, at), at, m, throws)
    ensures if LedgerSucceeds(db.books, Source(w), LineAmount(w), throws)
            then Leads(s, Lone(db, gate, LedgerLocks(at, db.books, locks, w, m.txn), AfterLedger(db.books, w, m.txn), at), at, m, throws)
            else Leads(s, Lone(db, gate, map[], w.(pc := if w.job.Process? then Catch else Done), at), at, m, throws)
  {
    hide Leads, Next, LedgerKey, L.HasKey, L.HasId, Lines, Source, LineAmount;
    LeadsStep(s, Lone(db, gate, locks, w, at), at, m, throws);
    if Check in throws {
      LoneThrow(db, gate, locks, w, at, m, throws);
    } else {
      LoneCheck(db, gate, locks, w, at, m, throws);
      if !L.HasKey(db.books.txns, LedgerKey(Source(w))) {
        var w1 := w.(pc := Post);
        SamePosting(w, Post);
        LeadsStep(s, Lone(db, gate, locks, w1, at), at, m, throws);
        if Post in throws {
          LoneThrow(db, gate, locks, w1, at, m, throws);
        } else if LineAmount(w) <= 0 {
          LonePostRefused(db, gate, locks, w1, at, m, throws);
        } else {
          LonePost(db, gate, locks, w1, at, m, throws);
        }
      }
    }
  }

  lemma SamePosting(w: Worker, pc: Pc)
    ensures var v := w.(pc := pc); Source(v) == Source(w) && Lines(v) == Lines(w) && LineAmount(v) == LineAmount(w)
  {
  }

  /** Linking the posting to its row. */
  lemma LoneLink(db: Db, gate: Gate, locks: map<Resource, nat>, w: Worker, at: Place, m: Mints, throws: set<Pc>)
    requires Mine(at, locks) && w.pc == Link && !(Link in throws)
    ensures Next(Lone(db, gate, locks, w, at), at, m, throws)
         == Lone(db, gate, locks[(if w.job.Process? then RefundRow(w.job.refund) else DisputeRow(w.disp)) := at.call],
                 w.(linked := true, pc := KeyCheck), at)
  {
  }

  lemma LoneCommit(db: Db, gate: Gate, locks: map<Resource, nat>, w: Worker, at: Place, m: Mints, throws: set<Pc>)
    requires Mine(at, locks) && w.pc == Commit && !(Commit in throws)
    ensures Next(Lone(db, gate, locks, w, at), at, m, throws)
         == Lone(Committed(db, w), gate, map[], w.(pc := if w.job.Process? then Final else Done, post := None, record := None), at)
  {
    hide DoCommit, Committed;
    LoneMoves(db, gate, locks, w, w, at);
  }

  /** What is committed of the ledger step. */
  lemma BookedIsRecorded(books: L.Books, w: Worker, txn: string, source: LedgerSource, lines: seq<L.Entry>)
    requires lines == Lines(w) && source == Source(w)
    requires w.post == if L.HasKey(books.txns, LedgerKey(source)) then None else Some(L.Txn(txn, Some(LedgerKey(source)), Some(source), lines))
    ensures Booked(books, w) == Recorded(books, source, lines, txn)
  {
    hide LedgerKey, L.HasKey, Source, Lines;
  }
}
