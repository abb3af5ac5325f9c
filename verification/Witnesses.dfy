/**
 * Runs from an initial state that reach what should not be reached.
 *
 * Each promise that the code breaks has its exact condition elsewhere; here is a run in
 * which that condition fails and the promise with it, so none of the conditions is idle.
 */
module Witnesses {
  import opened Prelude
  import opened Keys
  import opened Engine
  import opened Invariant
  import opened Machine
  import opened Totals
  import opened Theorems
  import opened Reviews
  import opened Serial
  import opened Progress
  import opened Overlaps
  import opened Outcomes
  import opened Calls
  import R = RefundCalls
  import D = DeliveryCalls
  import W = WonGrants
  import G = Gateways
  import L = Ledger
  import C = Credits

  // ----- A refund denied after it was paid -----

  function Reviewing(id: string, r: Request): seq<Action> {
    [Create(id, r), Spawn(0, Review(id, false)), Step(0, ""), ReviewNow(id, true)]
  }

  /** A denial has read PENDING; then the request is approved. */
  lemma DenialPending(s: State, id: string, r: Request, opening: map<string, int>)
    requires Initial(s, opening) && r.kind == PAYMENT && r.amount > 0 && r.gateway.Some? && Given(r.charge) && r.subscribed
    ensures var e := Run(s, Reviewing(id, r));
            && id in e.db.refunds && e.db.refunds[id] == Refund(r.user, PAYMENT, r.amount, r.gateway, r.charge, APPROVED, None, 0)
            && e.locks == map[] && e.db.books == s.db.books
            && e.workers == map[0 := Begin(Review(id, false)).(pc := Write)]
  {
    RunFour(s, Create(id, r), Spawn(0, Review(id, false)), Step(0, ""), ReviewNow(id, true));
  }

  predicate DeniedAfterPaying(e: State, id: string, amount: int) {
    && id in e.db.refunds && e.db.refunds[id].kind == PAYMENT && e.db.refunds[id].status == DENIED
    && e.db.refunds[id].paymentRefundId.Some? && MovedBy(e.db.books.txns, RefundOf(id), L.Account("test-admin-1", L.REVENUE)) == -amount
  }

  /** The pending denial writes over the finished refund. */
  lemma DenialWrites(s: State, id: string)
    requires 0 in s.workers && s.workers[0] == Begin(Review(id, false)).(pc := Write) && id in s.db.refunds && RefundRow(id) !in s.locks
    ensures var e := Do(s, Step(0, ""));
            && e.db == s.db.(refunds := s.db.refunds[id := s.db.refunds[id].(status := DENIED)])
  {
    hide Released;
  }

  /**
   * From any initial state, for any payment request: a denial that was checked before the
   * approval and writes after the refund leaves it DENIED with its money moved.
   */
  lemma RefundCanBeDeniedAfterPaying(s: State, id: string, r: Request, mint: string, opening: map<string, int>)
    requires Initial(s, opening) && r.kind == PAYMENT && r.amount > 0 && r.gateway.Some? && Given(r.charge) && r.subscribed
    ensures var acts := Reviewing(id, r) + ([Spawn(1, Process(id))] + StepsOf(1, mint, 10)) + [Step(0, "")];
            DeniedAfterPaying(Run(s, acts), id, r.amount)
  {
    hide Do, Run, Inv, MovedBy, StepsOf;
    var first := Reviewing(id, r);
    var call := [Spawn(1, Process(id))] + StepsOf(1, mint, 10);
    DenialPending(s, id, r, opening);
    Reachable(s, first, opening);
    var ready := Run(s, first);
    assert s.db.books.txns == [];
    hide Initial;
    OneCallProcesses(ready, 1, id, mint, opening);
    RunSplit(s, first, call);
    var paid := Run(ready, call);
    Reachable(s, first + call, opening);
    PaidFacts(ready, paid, call, id, opening);
    RunSnoc(s, first + call, Step(0, ""));
    DenialWrites(paid, id);
  }

  lemma PaidFacts(s: State, paid: State, acts: seq<Action>, id: string, opening: map<string, int>)
    requires Inv(s, opening) && Inv(paid, opening) && paid == Run(s, acts)
    requires id in s.db.refunds && s.db.refunds[id].kind == PAYMENT && id in paid.db.refunds && paid.db.refunds[id].status == PROCESSED
    ensures paid.db.refunds[id].kind == PAYMENT && paid.db.refunds[id].amount == s.db.refunds[id].amount
    ensures paid.db.refunds[id].paymentRefundId.Some?
    ensures MovedBy(paid.db.books.txns, RefundOf(id), L.Account("test-admin-1", L.REVENUE)) == -paid.db.refunds[id].amount
  {
    hide RowsOk, WorkerOk, Run, MovedBy;
    ReachableFrom(s, acts, opening);
    RefundFacts(paid.db, paid.gate, opening, id);
    BookedWhenProcessed(paid.db, paid.gate, id);
    RefundMoved(paid.db, paid.gate, opening, id, L.Account("test-admin-1", L.REVENUE));
  }

  lemma BookedWhenProcessed(db: Db, gate: Gate, id: string)
    requires id in db.refunds && RefundOk(db, gate, id) && db.refunds[id].kind == PAYMENT && db.refunds[id].status == PROCESSED
    ensures db.refunds[id].paymentRefundId.Some?
  {
    hide GatewayPaid, HasSource, Wrote;
  }

  // ----- A deduction without its refund -----

  function Bought(opening: map<string, int>): Db {
    Db(map[], map[], L.Books(map[], []), C.Purse(opening, []), map[], [])
  }

  function NoGate(): Gate {
    Gate(G.GatewayState(map[], map[]), G.GatewayState(map[], map[]))
  }

  function Asked(r: Request, status: RefundStatus): Refund {
    Refund(r.user, PAYMENT, r.amount, r.gateway, r.charge, status, None, 0)
  }

  predicate DeductedOnly(db: Db, id: string, amount: int) {
    && id in db.refunds && db.refunds[id].paymentRefundId.None? && db.books.txns == []
    && |db.purse.log| == 1 && db.purse.log[0].amount == -amount
  }

  lemma RequestReached(opening: map<string, int>, id: string, r: Request, required: int)
    requires (forall u :: C.Balance(opening, u) >= 0) && r.kind == PAYMENT && r.amount > 0 && r.gateway.Some? && Given(r.charge) && r.subscribed
    ensures Reached(Bought(opening).(refunds := map[id := Asked(r, APPROVED)]), NoGate(), required, opening)
  {
    hide Reached, Completes;
    var db := Bought(opening);
    var s := State(db, NoGate(), map[], map[], required);
    EmptyIsReached(opening, required);
    DoneReached(db, NoGate(), required, Create(id, r), opening);
    var asked := db.(refunds := map[id := Asked(r, PENDING)]);
    assert Do(s, Create(id, r)).db == asked;
    R.ReviewCompletes(asked, NoGate(), required, id, true, Mints("", "", ""), {});
    assert R.ReviewRefund(asked, NoGate(), id, true, {}).db == db.(refunds := map[id := Asked(r, APPROVED)]);
    var decided := db.(refunds := map[id := Asked(r, APPROVED)]);
    CompletedReached(asked, NoGate(), required, Review(id, true), Mints("", "", ""), {}, decided, NoGate(), opening);
  }

  lemma EmptyIsReached(opening: map<string, int>, required: int)
    requires forall u :: C.Balance(opening, u) >= 0
    ensures Reached(Bought(opening), NoGate(), required, opening)
  {
    var s := State(Bought(opening), NoGate(), map[], map[], required);
    RunNone(s);
    assert Initial(s, opening) && Ends(s, [], Bought(opening), NoGate(), required);
  }

  /** For any covered payment request there is a run that ends with its deduction and nothing else of it. */
  lemma DeductionCanBeAllThatIsLeft(opening: map<string, int>, id: string, r: Request, m: Mints, required: int)
    requires (forall u :: C.Balance(opening, u) >= 0) && r.kind == PAYMENT && r.amount > 0 && r.gateway.Some? && Given(r.charge) && r.subscribed
    requires C.Balance(opening, r.user) >= r.amount
    ensures exists db: Db, gate: Gate :: Reached(db, gate, required, opening) && DeductedOnly(db, id, r.amount)
  {
    hide Reached, Completes, CreditKey, C.Balance, G.Answer, G.AfterRefund, LedgerKey;
    var db := Bought(opening).(refunds := map[id := Asked(r, APPROVED)]);
    RequestReached(opening, id, r, required);
    R.ProcessRefundCompletes(db, NoGate(), required, id, m, {Commit});
    var end := R.ProcessRefund(db, NoGate(), id, m, {Commit});
    CompletedReached(db, NoGate(), required, Process(id), m, {Commit}, end.db, end.gate, opening);
    ReachedRowsOk(db, NoGate(), required, opening);
    R.AnswerIsFull(db, NoGate(), id, m, opening);
    assert !C.HasKey(db.purse.log, CreditKey(RefundDeduct(id)));
    assert DeductedOnly(end.db, id, r.amount);
  }

  // ----- A dispute, opened -----

  function Opens(charge: string, user: string, amount: int): Job {
    Chargeback("event", charge, user, amount)
  }

  /** A state with one OPEN dispute, nothing posted for it but its reversal, and nothing held. */
  ghost predicate JustOpened(e: State, d: string) {
    && d in e.db.disputes && e.db.disputes[d].status == OPEN && Matched(e.db, d)
    && e.locks == map[] && !WroteAny(e.db.purse.log, WonGrant(d))
  }

  lemma DeliveredRows(db: Db, job: Job, required: int, m: Mints)
    requires job.Chargeback? && job.amount > 0 && job.event != ""
    requires db.disputes == map[] && db.books.txns == [] && db.webhooks == map[] && db.purse.log == []
    ensures var end := D.Deliver(db, job, required, m, {}).0;
            && m.dispute in end.disputes && end.disputes[m.dispute].status == OPEN && Matched(end, m.dispute)
            && !WroteAny(end.purse.log, WonGrant(m.dispute))
  {
    hide CreditKey, LedgerKey, DisputeKey;
    assert !HasDispute(db.disputes, DisputeKey(job.charge)) && !L.HasKey(db.books.txns, LedgerKey(ReversalOf(job.charge)));
  }

  lemma DisputeOpens(s: State, charge: string, user: string, amount: int, m: Mints, opening: map<string, int>)
    returns (acts: seq<Action>)
    requires Initial(s, opening) && amount > 0
    ensures Inv(Run(s, acts), opening) && JustOpened(Run(s, acts), m.dispute)
  {
    hide Run, Inv, Completes, D.Deliver, RowsOk, Matched, WroteAny, WorkerOk;
    var job := Opens(charge, user, amount);
    InitialInv(s, opening);
    InitialRows(s, opening);
    D.DeliverCompletes(s.db, s.gate, s.required, job, m, {}, opening);
    RunNone(s);
    var end := D.Deliver(s.db, job, s.required, m, {}).0;
    acts := CompletedExtends(s, [], s.db, s.gate, s.required, job, m, {}, end, s.gate);
    assert [] + acts == acts;
    DeliveredRows(s.db, job, s.required, m);
    Reachable(s, acts, opening);
  }

  lemma InitialRows(s: State, opening: map<string, int>)
    requires Initial(s, opening)
    ensures RowsOk(s.db, s.gate, opening)
    ensures s.db.books.txns == [] && s.db.disputes == map[] && s.db.webhooks == map[] && s.db.purse.log == [] && s.locks == map[]
  {
    hide RowsOk, WorkerOk;
    InitialInv(s, opening);
  }

  /** Two or three numbers no call has. */
  lemma FreshCalls(s: State) returns (i: nat)
    ensures i !in s.workers && i + 1 !in s.workers && i + 2 !in s.workers
  {
    i := Bound(s.workers.Keys);
  }

  lemma {:induction false} LongerThanAll(txns: seq<L.Txn>) returns (n: nat)
    ensures forall k :: 0 <= k < |txns| ==> |txns[k].id| < n
  {
    if txns == [] {
      n := 0;
    } else {
      var last := |txns| - 1;
      var before := LongerThanAll(txns[..last]);
      n := if |txns[last].id| < before then before else |txns[last].id| + 1;
      assert forall k :: 0 <= k < last ==> txns[k] == txns[..last][k];
    }
  }

  /** Two different ids no ledger transaction has. */
  lemma FreshIds(s: State) returns (m: string, n: string)
    requires s.locks == map[]
    ensures m != n && Unminted(s, m) && Unminted(s, n)
  {
    var size := LongerThanAll(s.db.books.txns);
    m := seq(size, _ => 'm');
    n := seq(size + 1, _ => 'n');
    assert |m| == size && |n| == size + 1;
  }

  // ----- A resolved dispute, reopened -----

  lemma EvidenceReads(s: State, i: nat, d: string)
    requires i !in s.workers && d in s.db.disputes && s.db.disputes[d].status == OPEN
    ensures Run(s, [Spawn(i, Evidence(d)), Step(i, "")]) == s.(workers := s.workers[i := Begin(Evidence(d)).(pc := Write)])
  {
    RunTwo(s, Spawn(i, Evidence(d)), Step(i, ""));
  }

  lemma EvidenceWrites(s: State, i: nat, d: string)
    requires i in s.workers && s.workers[i] == Begin(Evidence(d)).(pc := Write) && d in s.db.disputes && s.locks == map[]
    ensures var e := Do(s, Step(i, ""));
            d in e.db.disputes && e.db.disputes[d].status == EVIDENCE_SUBMITTED && e.db.books == s.db.books
  {
    hide Released;
  }

  ghost predicate Reopened(e: State, d: string) {
    d in e.db.disputes && e.db.disputes[d].status == EVIDENCE_SUBMITTED && HasSource(e.db.books.txns, LostOf(d))
  }

  /** An evidence call reads; a LOST outcome goes through; the evidence call writes. */
  function EvidenceThenLost(i: nat, d: string, fee: int, mint: string): seq<Action> {
    [Spawn(i, Evidence(d)), Step(i, "")] + OutcomeBegins(i + 1, d, false, fee) + OutcomeSteps(i + 1, false, mint) + [Step(i, "")]
  }

  lemma EvidenceReopens(s: State, i: nat, d: string, fee: int, mint: string, opening: map<string, int>)
    requires Inv(s, opening) && JustOpened(s, d) && i !in s.workers && i + 1 !in s.workers && fee > 0 && Unminted(s, mint)
    ensures Reopened(Run(s, EvidenceThenLost(i, d, fee, mint)), d)
  {
    hide Inv, Do, Run, Matched, WroteAny, OutcomeSteps, LedgerKey, L.HasId, L.HasKey, Evolves, GateGrows;
    var a := [Spawn(i, Evidence(d)), Step(i, "")];
    EvidenceReads(s, i, d);
    var s1 := Run(s, a);
    ReachableFrom(s, a, opening);
    OutcomeReads(s1, i + 1, d, false, fee, mint, opening);
    var s2 := Run(s1, OutcomeBegins(i + 1, d, false, fee));
    OutcomeCompletes(s2, i + 1, d, false, fee, mint);
    var s3 := Run(s2, OutcomeSteps(i + 1, false, mint));
    var t :| s3.db.books.txns == s2.db.books.txns + [t] && t.source == Some(LostOf(d));
    AppendedTxns(s2.db.books.txns, t, LostOf(d));
    EvidenceWrites(s3, i, d);
    RunSplit(s, a, OutcomeBegins(i + 1, d, false, fee));
    RunSplit(s, a + OutcomeBegins(i + 1, d, false, fee), OutcomeSteps(i + 1, false, mint));
    RunSnoc(s, a + OutcomeBegins(i + 1, d, false, fee) + OutcomeSteps(i + 1, false, mint), Step(i, ""));
  }

  /** From any initial state there is a run that takes a LOST dispute, its fee posted, back to EVIDENCE_SUBMITTED. */
  lemma LostDisputeCanReopen(s: State, charge: string, user: string, amount: int, fee: int, m: Mints, opening: map<string, int>)
    requires Initial(s, opening) && amount > 0 && fee > 0
    ensures exists acts :: Reopened(Run(s, acts), m.dispute)
  {
    hide Inv, Run, JustOpened, Reopened, EvidenceThenLost;
    var first := DisputeOpens(s, charge, user, amount, m, opening);
    var e := Run(s, first);
    var i := FreshCalls(e);
    assert e.locks == map[] by { OpenedHoldsNothing(e, m.dispute); }
    var x, y := FreshIds(e);
    EvidenceReopens(e, i, m.dispute, fee, x, opening);
    RunSplit(s, first, EvidenceThenLost(i, m.dispute, fee, x));
    assert Reopened(Run(s, first + EvidenceThenLost(i, m.dispute, fee, x)), m.dispute);
  }

  lemma OpenedHoldsNothing(e: State, d: string)
    requires JustOpened(e, d)
    ensures e.locks == map[] && d in e.db.disputes && !Resolved(e.db.disputes[d].status) && Matched(e.db, d)
  {
    hide Matched, WroteAny;
  }

  ghost predicate BothPosted(e: State, d: string) {
    d in e.db.disputes && e.db.disputes[d].status == LOST && HasSource(e.db.books.txns, WonOf(d)) && HasSource(e.db.books.txns, LostOf(d))
  }

  /** And one that posts both outcomes of a dispute. */
  lemma DisputeCanBeWonAndLost(s: State, charge: string, user: string, amount: int, fee: int, m: Mints, opening: map<string, int>)
    requires Initial(s, opening) && amount > 0 && fee > 0
    ensures exists acts :: BothPosted(Run(s, acts), m.dispute)
  {
    hide Inv, Run, JustOpened, OutcomeSteps, AboutToPost, HasSource, Unminted;
    var d := m.dispute;
    var first := DisputeOpens(s, charge, user, amount, m, opening);
    var e := Run(s, first);
    var i := FreshCalls(e);
    OpenedHoldsNothing(e, d);
    var x, y := FreshIds(e);
    TwoOutcomesCanPassTheCheck(e, i, i + 1, d, fee, x, y, opening);
    var check := OutcomeBegins(i, d, true, 0) + OutcomeBegins(i + 1, d, false, fee);
    var both := OutcomeSteps(i, true, x) + OutcomeSteps(i + 1, false, y);
    WonAndLostCanBothPost(Run(e, check), i, i + 1, d, fee, x, y);
    RunSplit(s, first, check);
    RunSplit(s, first + check, both);
    assert BothPosted(Run(s, first + check + both), d);
  }

  // ----- A won dispute, granted twice -----

  lemma FindsPosting(s: State, j: nat, d: string)
    requires j in s.workers && s.workers[j].job == Outcome(d, true, 0) && s.workers[j].pc == Check
    requires L.HasKey(s.db.books.txns, LedgerKey(WonOf(d)))
    ensures var e := Do(s, Step(j, ""));
            && j in e.workers && e == s.(workers := s.workers[j := e.workers[j]])
            && e.workers[j].job == s.workers[j].job && e.workers[j].dis == s.workers[j].dis && e.workers[j].pc == KeyCheck
  {
    hide LedgerKey, L.HasKey;
  }

  lemma PassesLookup(s: State, j: nat, d: string)
    requires j in s.workers && s.workers[j].job == Outcome(d, true, 0) && s.workers[j].pc == KeyCheck && s.workers[j].dis.amount > 0
    requires !C.HasKey(s.db.purse.log, CreditKey(WonGrant(d)))
    ensures var e := Do(s, Step(j, ""));
            && j in e.workers && e == s.(workers := s.workers[j := e.workers[j]])
            && Granting(e, j, CreditKey(WonGrant(d)), s.workers[j].dis.user)
  {
    hide CreditKey, C.HasKey;
  }

  /** A WON call that read the dispute before it was won finds the posting there, and passes its lookup holding nothing. */
  lemma LateWinnerPassesLookup(s: State, j: nat, d: string)
    requires j in s.workers && s.workers[j].job == Outcome(d, true, 0) && s.workers[j].pc == Check && s.workers[j].dis.amount > 0
    requires L.HasKey(s.db.books.txns, LedgerKey(WonOf(d))) && !C.HasKey(s.db.purse.log, CreditKey(WonGrant(d)))
    ensures var e := Run(s, [Step(j, ""), Step(j, "")]);
            && e.db == s.db && e.locks == s.locks && j in e.workers && e.workers == s.workers[j := e.workers[j]]
            && Granting(e, j, CreditKey(WonGrant(d)), s.workers[j].dis.user)
  {
    hide Do, Run, LedgerKey, CreditKey, L.HasKey, C.HasKey, Granting;
    FindsPosting(s, j, d);
    PassesLookup(Do(s, Step(j, "")), j, d);
    RunTwo(s, Step(j, ""), Step(j, ""));
  }

  function ThreeRead(i: nat, d: string): seq<Action> {
    OutcomeBegins(i, d, true, 0) + OutcomeBegins(i + 1, d, true, 0) + OutcomeBegins(i + 2, d, true, 0)
  }

  /** Three WON calls read the open dispute. */
  lemma ThreeReadIt(s: State, i: nat, d: string, mint: string, opening: map<string, int>)
    requires Inv(s, opening) && JustOpened(s, d) && i !in s.workers && i + 1 !in s.workers && i + 2 !in s.workers && Unminted(s, mint)
    ensures var e := Run(s, ThreeRead(i, d));
            && AboutToPost(e, i, d, true, 0, mint) && AboutToPost(e, i + 1, d, true, 0, mint) && AboutToPost(e, i + 2, d, true, 0, mint)
            && e.db == s.db && e.locks == map[]
            && e.workers[i + 1].dis == s.db.disputes[d] && e.workers[i + 2].dis == s.db.disputes[d]
  {
    hide Inv, Run, Matched, WroteAny, LedgerKey, L.HasId, L.HasKey, Evolves, GateGrows;
    OutcomeReads(s, i, d, true, 0, mint, opening);
    var s1 := Run(s, OutcomeBegins(i, d, true, 0));
    ReachableFrom(s, OutcomeBegins(i, d, true, 0), opening);
    OutcomeReads(s1, i + 1, d, true, 0, mint, opening);
    var s2 := Run(s1, OutcomeBegins(i + 1, d, true, 0));
    ReachableFrom(s1, OutcomeBegins(i + 1, d, true, 0), opening);
    OutcomeReads(s2, i + 2, d, true, 0, mint, opening);
    RunSplit(s, OutcomeBegins(i, d, true, 0), OutcomeBegins(i + 1, d, true, 0));
    RunSplit(s, OutcomeBegins(i, d, true, 0) + OutcomeBegins(i + 1, d, true, 0), OutcomeBegins(i + 2, d, true, 0));
  }

  /** The first wins with its credits call swallowed; the others then both grant. */
  lemma SwallowedWinIsGrantedTwice(s: State, i: nat, d: string, mint: string, user: string)
    requires AboutToPost(s, i, d, true, 0, mint) && AboutToPost(s, i + 1, d, true, 0, mint) && AboutToPost(s, i + 2, d, true, 0, mint)
    requires s.locks == map[] && s.workers[i + 1].dis.user == user && s.workers[i + 2].dis.user == user
    requires !C.HasKey(s.db.purse.log, CreditKey(WonGrant(d)))
    ensures exists acts :: C.Count(Run(s, acts).db.purse.log, CreditKey(WonGrant(d))) == 2
  {
    hide Do, Run, OutcomeSteps, CreditKey, LedgerKey, L.HasId, C.Count, Granting;
    var key := CreditKey(WonGrant(d));
    var j, k := i + 1, i + 2;
    var win := OutcomeSteps(i, true, mint);
    OutcomeCompletes(s, i, d, true, 0, mint);
    var won := Run(s, win);
    var t :| won.db.books.txns == s.db.books.txns + [t] && t.key == Some(LedgerKey(WonOf(d)));
    assert won.db.books.txns[|s.db.books.txns|] == t;
    LateWinnerPassesLookup(won, j, d);
    var one := Run(won, [Step(j, ""), Step(j, "")]);
    LateWinnerPassesLookup(one, k, d);
    var two := Run(one, [Step(k, ""), Step(k, "")]);
    StillGranting(one, two, j, key, user);
    TwoPastTheLookupBothWrite(two, j, k, key, user);
    C.CountZero(two.db.purse.log, key);
    RunSplit(s, win, [Step(j, ""), Step(j, "")]);
    RunSplit(s, win + [Step(j, ""), Step(j, "")], [Step(k, ""), Step(k, "")]);
    RunSplit(s, win + [Step(j, ""), Step(j, "")] + [Step(k, ""), Step(k, "")], WriteBoth(two, j, k, user));
    assert C.Count(Run(s, win + [Step(j, ""), Step(j, "")] + [Step(k, ""), Step(k, "")] + WriteBoth(two, j, k, user)).db.purse.log, key) == 2;
  }

  /** From any initial state there is a run that grants the credits of one won dispute twice. */
  lemma WonDisputeCanBeGrantedTwice(s: State, charge: string, user: string, amount: int, m: Mints, opening: map<string, int>)
    requires Initial(s, opening) && amount > 0
    ensures exists acts :: C.Count(Run(s, acts).db.purse.log, CreditKey(WonGrant(m.dispute))) == 2
  {
    hide Inv, Run, AboutToPost, CreditKey, C.Count, Unminted, Initial, WroteAny, RowsOk, WorkerOk;
    var d := m.dispute;
    var first := DisputeOpens(s, charge, user, amount, m, opening);
    var e := Run(s, first);
    var i := FreshCalls(e);
    OpenedHoldsNothing(e, d);
    var x, y := FreshIds(e);
    ThreeReadIt(e, i, d, x, opening);
    var read := Run(e, ThreeRead(i, d));
    NotGranted(e, d, opening);
    AboutKnown(read, i + 1, d, x);
    AboutKnown(read, i + 2, d, x);
    SwallowedWinIsGrantedTwice(read, i, d, x, e.db.disputes[d].user);
    var rest :| C.Count(Run(read, rest).db.purse.log, CreditKey(WonGrant(d))) == 2;
    RunSplit(s, first, ThreeRead(i, d));
    RunSplit(s, first + ThreeRead(i, d), rest);
    assert C.Count(Run(s, first + ThreeRead(i, d) + rest).db.purse.log, CreditKey(WonGrant(d))) == 2;
  }

  lemma AboutKnown(s: State, i: nat, d: string, mint: string)
    requires AboutToPost(s, i, d, true, 0, mint)
    ensures i in s.workers
  {
    hide LedgerKey, L.HasKey, L.HasId;
  }

  lemma NotGranted(s: State, d: string, opening: map<string, int>)
    requires Inv(s, opening) && !WroteAny(s.db.purse.log, WonGrant(d))
    ensures !C.HasKey(s.db.purse.log, CreditKey(WonGrant(d)))
  {
    hide RowsOk, WorkerOk, CreditKey, WroteAny;
    W.KeyIsGrant(s.db, s.gate, opening, d);
  }


  // ----- A refunded charge under two event ids -----

  predicate NewReversal(s: State, i: nat, b: Job) {
    i !in s.workers && b.Refunded? && b.taken > 0 && b.event != ""
    && b.event !in s.db.webhooks && WebhookId(b.event) !in s.locks
  }

  lemma ReversalClaimsEvent(s: State, i: nat, b: Job)
    requires NewReversal(s, i, b)
    ensures var e := Run(s, [Spawn(i, b), Step(i, ""), Step(i, "")]);
            && e.db == s.db && e.locks == s.locks[WebhookId(b.event) := i] && i in e.workers && e.workers == s.workers[i := e.workers[i]]
            && e.workers[i].job == b && e.workers[i].pc == KeyCheck
  {
    hide CreditKey;
    RunThree(s, Spawn(i, b), Step(i, ""), Step(i, ""));
  }

  lemma ReversalPassesLookup(s: State, i: nat, b: Job)
    requires NewReversal(s, i, b) && !C.HasKey(s.db.purse.log, CreditKey(ChargeReversal(b.charge)))
    ensures var e := Run(s, [Spawn(i, b), Step(i, ""), Step(i, ""), Step(i, "")]);
            && e.db == s.db && e.locks == s.locks[WebhookId(b.event) := i] && i in e.workers && e.workers == s.workers[i := e.workers[i]]
            && Deducting(e, i, CreditKey(ChargeReversal(b.charge)), b.user, b.taken) && e.workers[i].pc == RowLock
  {
    hide CreditKey, C.HasKey, Run, AfterCredit, DoStart, DoCallGateway, DoDedup, DoFind, DoInsert, DoCheck, DoPost, DoLink, DoRowLock, DoSettle,
         DoRecord, DoResolve, DoCommit, DoFinal, DoCatch, DoWrite;
    ReversalClaimsEvent(s, i, b);
    RunSnoc(s, [Spawn(i, b), Step(i, ""), Step(i, "")], Step(i, ""));
    assert [Spawn(i, b), Step(i, ""), Step(i, "")] + [Step(i, "")] == [Spawn(i, b), Step(i, ""), Step(i, ""), Step(i, "")];
  }

  /**
   * Two overlapping charge.refunded deliveries of one charge under two event ids take its
   * credits back twice if and only if the opening balance covers both.
   */
  lemma RefundedUnderTwoEvents(s: State, b: Job, c: Job, opening: map<string, int>)
    requires Initial(s, opening) && b.Refunded? && c.Refunded? && b.taken > 0 && c.taken > 0
    requires b.charge == c.charge && b.user == c.user && b.event != "" && c.event != "" && b.event != c.event
    ensures C.Count(Run(s, DeliverTwice(b, c)).db.purse.log, CreditKey(ChargeReversal(b.charge))) == 2
       <==> C.Balance(opening, b.user) >= b.taken + c.taken
  {
    hide C.Count, Do, Run, CreditKey, Deducting, Inv, C.Balance, Evolves, GateGrows;
    var key := CreditKey(ChargeReversal(b.charge));
    var one := [Spawn(0, b), Step(0, ""), Step(0, ""), Step(0, "")];
    var two := [Spawn(1, c), Step(1, ""), Step(1, ""), Step(1, "")];
    InitialInv(s, opening);
    assert s.db.purse.log == [] && s.locks == map[] && s.db.webhooks == map[] && s.workers == map[] && s.db.purse.balances == opening;
    hide Initial;
    C.CountZero(s.db.purse.log, key);
    ReversalPassesLookup(s, 0, b);
    var first := Run(s, one);
    ReachableFrom(s, one, opening);
    ReversalPassesLookup(first, 1, c);
    var both := Run(first, two);
    ReachableFrom(first, two, opening);
    StillDeducting(first, both, 0, key, b.user, b.taken);
    TwoDeductionsBothWrite(both, 0, 1, key, b.user, b.taken, c.taken, opening);
    RunSplit(s, one, two);
    RunSplit(s, one + two, WriteBoth(both, 0, 1, b.user));
  }

  lemma StillDeducting(s: State, e: State, i: nat, key: string, user: string, amount: int)
    requires Deducting(s, i, key, user, amount) && i in e.workers && e.workers[i] == s.workers[i]
    ensures Deducting(e, i, key, user, amount)
  {
    hide Key, Credit;
  }
}
