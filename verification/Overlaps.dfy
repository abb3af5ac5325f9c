/**
 * What overlap really allows.
 *
 * Where the code checks and then acts with nothing held in between, a stated promise fails.
 * Each such place has here the exact condition under which one step keeps the promise, and
 * where the failure takes a whole run, that run.
 */
module Overlaps {
  import opened Prelude
  import opened Keys
  import opened Engine
  import opened Invariant
  import opened Machine
  import opened Once
  import opened Theorems
  import opened Effects
  import opened Reviews
  import opened Progress
  import opened Deliveries
  import L = Ledger
  import C = Credits

  // ----- Two calls past the lookup of one credits key -----

  predicate Granting(s: State, i: nat, key: string, user: string) {
    Past(s, i, key) && Credit(s.workers[i]).grant && Credit(s.workers[i]).user == user
  }

  function ToWrite(s: State, i: nat, mint: string): seq<Action> {
    if i in s.workers && s.workers[i].pc == RowLock then [Step(i, mint), Step(i, mint)] else [Step(i, mint)]
  }

  /** A grant past the lookup, with the balance row not held by another call, writes its row. */
  lemma GrantWrites(s: State, i: nat, key: string, user: string, mint: string)
    requires Granting(s, i, key, user) && Free(s, CreditsRow(user), i)
    ensures var e := Run(s, ToWrite(s, i, mint));
            && C.Count(e.db.purse.log, key) == C.Count(s.db.purse.log, key) + 1
            && CreditsRow(user) !in e.locks
            && (forall j :: j in s.workers && j != i ==> j in e.workers && e.workers[j] == s.workers[j])
  {
    hide C.Count, CreditKey, Do;
    if s.workers[i].pc == RowLock {
      RowTaken(s, i, mint);
      var mid := Do(s, Step(i, mint));
      RunOne(s, Step(i, mint));
      RunSnoc(s, [Step(i, mint)], Step(i, mint));
      assert [Step(i, mint)] + [Step(i, mint)] == [Step(i, mint), Step(i, mint)];
      SettleWrites(mid, i, key, user, mint);
    } else {
      RunOne(s, Step(i, mint));
      SettleWrites(s, i, key, user, mint);
    }
  }

  lemma RowTaken(s: State, i: nat, mint: string)
    requires i in s.workers && s.workers[i].pc == RowLock && Credit(s.workers[i]).grant && Free(s, CreditsRow(Credit(s.workers[i]).user), i)
    ensures var e := Do(s, Step(i, mint));
            && e.db == s.db && i in e.workers && e.workers == s.workers[i := e.workers[i]]
            && e.workers[i].pc == Settle && Credit(e.workers[i]) == Credit(s.workers[i])
  {
    hide CreditKey, AfterCredit, C.Balance;
  }

  lemma SettleWrites(s: State, i: nat, key: string, user: string, mint: string)
    requires i in s.workers && s.workers[i].pc == Settle && Key(s.workers[i]) == key && Credit(s.workers[i]).user == user
    ensures var e := Do(s, Step(i, mint));
            && C.Count(e.db.purse.log, key) == C.Count(s.db.purse.log, key) + 1
            && CreditsRow(user) !in e.locks
            && i in e.workers && e.workers == s.workers[i := e.workers[i]]
  {
    hide C.Count, CreditKey, AfterCredit, Key, Credit;
    var w := s.workers[i];
    SettleShape(s, i);
    RowKey(w);
    C.CountAppend(s.db.purse.log, CreditRow(w), key);
    RowDropped(s, i, user);
  }

  lemma RowDropped(s: State, i: nat, user: string)
    requires i in s.workers && s.workers[i].pc == Settle && Credit(s.workers[i]).user == user
    ensures CreditsRow(user) !in DoSettle(s, i, s.workers[i]).locks
  {
    hide CreditKey, Credit, AfterCreditPc, CreditRow;
  }

  /** The two calls one after the other, the one that holds the balance row first if one does. */
  function WriteBoth(s: State, i: nat, j: nat, user: string): seq<Action> {
    if CreditsRow(user) in s.locks && s.locks[CreditsRow(user)] == j then ToWrite(s, j, "") + ToWrite(s, i, "")
    else ToWrite(s, i, "") + ToWrite(s, j, "")
  }

  lemma WriteInTurn(s: State, first: nat, second: nat, key: string, user: string)
    requires first != second && Granting(s, first, key, user) && Granting(s, second, key, user)
    requires Free(s, CreditsRow(user), first)
    ensures C.Count(Run(s, ToWrite(s, first, "") + ToWrite(s, second, "")).db.purse.log, key) == C.Count(s.db.purse.log, key) + 2
  {
    hide C.Count, Do, Run, Key, Credit, Past;
    GrantWrites(s, first, key, user, "");
    var mid := Run(s, ToWrite(s, first, ""));
    Known(s, second, key, user);
    StillPast(s, mid, second, key);
    GrantWrites(mid, second, key, user, "");
    RunSplit(s, ToWrite(s, first, ""), ToWrite(s, second, ""));
  }

  /**
   * Two grants past the lookup of one key, with the balance row held by nobody else, can both
   * be written: nothing in the credits table stops the second. With SingleKeyIsUsedOnce this
   * makes "no two calls past the lookup together" exactly the condition for exactly-once.
   */
  lemma TwoPastTheLookupBothWrite(s: State, i: nat, j: nat, key: string, user: string)
    requires i != j && Granting(s, i, key, user) && Granting(s, j, key, user)
    requires CreditsRow(user) in s.locks ==> s.locks[CreditsRow(user)] == i || s.locks[CreditsRow(user)] == j
    ensures C.Count(Run(s, WriteBoth(s, i, j, user)).db.purse.log, key) == C.Count(s.db.purse.log, key) + 2
  {
    hide C.Count, Do, Run, Granting, ToWrite;
    if CreditsRow(user) in s.locks && s.locks[CreditsRow(user)] == j {
      WriteInTurn(s, j, i, key, user);
    } else {
      WriteInTurn(s, i, j, key, user);
    }
  }

  lemma Known(s: State, i: nat, key: string, user: string)
    requires Granting(s, i, key, user)
    ensures i in s.workers && Past(s, i, key)
  {
    hide Key, Credit;
  }

  lemma StillPast(s: State, mid: State, j: nat, key: string)
    requires Past(s, j, key) && j in mid.workers && mid.workers[j] == s.workers[j]
    ensures Past(mid, j, key) && mid.workers[j] == s.workers[j]
  {
    hide Key;
  }

  // ----- Two deductions -----

  predicate Deducting(s: State, i: nat, key: string, user: string, amount: int) {
    Past(s, i, key) && !Credit(s.workers[i]).grant && Credit(s.workers[i]).user == user && Credit(s.workers[i]).amount == amount
  }

  lemma DeductionCovered(s: State, i: nat, key: string, user: string, amount: int, opening: map<string, int>)
    requires Inv(s, opening) && Deducting(s, i, key, user, amount)
    ensures amount > 0
    ensures s.workers[i].pc == Settle ==> s.workers[i].bal == C.Balance(s.db.purse.balances, user) && s.workers[i].bal >= amount
  {
    hide RowsOk, WorkerOk, Key, C.Balance;
    OneWorker(s, i, opening);
    SettleKnows(s.db, s.gate, s.locks, i, s.workers[i]);
  }

  lemma SettleKnows(db: Db, gate: Gate, locks: map<Resource, nat>, i: nat, w: Worker)
    requires WorkerOk(db, gate, locks, i, w) && PastLookup(w)
    ensures Credit(w).amount > 0
    ensures w.pc == Settle ==> w.bal == C.Balance(db.purse.balances, Credit(w).user) && (!Credit(w).grant ==> w.bal >= Credit(w).amount)
  {
    hide Shape, HoldsOk, PostOk, LedgerKey, CreditKey, DisputeKey, Credit, C.Balance, L.HasKey, L.HasId, HasDispute, HasCharge, ProcessOk;
  }

  /** A deduction past the lookup, with the balance row not held by another call: written if and only if the balance covers it. */
  lemma DeductionWrites(s: State, i: nat, key: string, user: string, amount: int, opening: map<string, int>)
    requires Inv(s, opening) && Deducting(s, i, key, user, amount) && Free(s, CreditsRow(user), i)
    ensures var e := Run(s, ToWrite(s, i, ""));
            var covered := C.Balance(s.db.purse.balances, user) >= amount;
            && C.Count(e.db.purse.log, key) == C.Count(s.db.purse.log, key) + (if covered then 1 else 0)
            && C.Balance(e.db.purse.balances, user) == C.Balance(s.db.purse.balances, user) - (if covered then amount else 0)
            && CreditsRow(user) !in e.locks && Inv(e, opening)
            && (forall j :: j in s.workers && j != i ==> j in e.workers && e.workers[j] == s.workers[j])
  {
    hide C.Count, CreditKey, Do, Inv, Run, Evolves, GateGrows, C.Balance;
    DeductionCovered(s, i, key, user, amount, opening);
    var mid := Do(s, Step(i, ""));
    RunOne(s, Step(i, ""));
    DoGood(s, Step(i, ""), opening);
    if s.workers[i].pc == Settle {
      SettleWrites(s, i, key, user, "");
      SettleTakes(s, i, user, amount);
    } else {
      RunSnoc(s, [Step(i, "")], Step(i, ""));
      assert [Step(i, "")] + [Step(i, "")] == [Step(i, ""), Step(i, "")];
      DoGood(mid, Step(i, ""), opening);
      if C.Balance(s.db.purse.balances, user) >= amount {
        DeductionTakesRow(s, i, user, amount);
        SettleWrites(mid, i, key, user, "");
        SettleTakes(mid, i, user, amount);
      } else {
        DeductionRefused(s, i, user, amount);
        RefusedMovesOn(s, mid, i, user, opening);
      }
    }
  }

  lemma SettleTakes(s: State, i: nat, user: string, amount: int)
    requires i in s.workers && s.workers[i].pc == Settle
    requires !Credit(s.workers[i]).grant && Credit(s.workers[i]).user == user && Credit(s.workers[i]).amount == amount
    ensures C.Balance(Do(s, Step(i, "")).db.purse.balances, user) == s.workers[i].bal - amount
  {
    hide CreditKey, AfterCreditPc, Credit, Released;
  }

  lemma DeductionTakesRow(s: State, i: nat, user: string, amount: int)
    requires i in s.workers && s.workers[i].pc == RowLock && Free(s, CreditsRow(user), i)
    requires !Credit(s.workers[i]).grant && Credit(s.workers[i]).user == user && Credit(s.workers[i]).amount == amount
    requires C.Balance(s.db.purse.balances, user) >= amount
    ensures var e := Do(s, Step(i, ""));
            && e.db == s.db && i in e.workers && e.workers == s.workers[i := e.workers[i]]
            && e.workers[i].pc == Settle && Credit(e.workers[i]) == Credit(s.workers[i])
            && e.workers[i].bal == C.Balance(s.db.purse.balances, user)
  {
    hide CreditKey, AfterCredit, C.Balance;
  }

  /** A deduction the balance does not cover goes on to its commit without it. */
  lemma DeductionRefused(s: State, i: nat, user: string, amount: int)
    requires i in s.workers && s.workers[i].pc == RowLock && Free(s, CreditsRow(user), i)
    requires !Credit(s.workers[i]).grant && Credit(s.workers[i]).user == user && Credit(s.workers[i]).amount == amount
    requires C.Balance(s.db.purse.balances, user) < amount
    ensures Do(s, Step(i, "")) == Move(s, i, s.workers[i].(pc := Commit))
  {
    hide CreditKey, C.Balance;
  }

  lemma RefusedMovesOn(s: State, mid: State, i: nat, user: string, opening: map<string, int>)
    requires i in s.workers && mid == Move(s, i, s.workers[i].(pc := Commit)) && Inv(mid, opening) && Free(s, CreditsRow(user), i)
    ensures var e := Do(mid, Step(i, ""));
            && e.db.purse == s.db.purse && CreditsRow(user) !in e.locks
            && (forall j :: j in s.workers && j != i ==> j in e.workers && e.workers[j] == s.workers[j])
  {
    hide Inv, Owned, Committed;
    StepIsOwned(mid, i, "", opening);
    CommitReleases(mid, i, "");
  }

  /**
   * Two deductions past the lookup of one key, with the balance row held by nobody else, are
   * both written if and only if the balance covers both.
   */
  lemma TwoDeductionsBothWrite(s: State, i: nat, j: nat, key: string, user: string, a: int, b: int, opening: map<string, int>)
    requires Inv(s, opening) && i != j && Deducting(s, i, key, user, a) && Deducting(s, j, key, user, b)
    requires CreditsRow(user) in s.locks ==> s.locks[CreditsRow(user)] == i || s.locks[CreditsRow(user)] == j
    ensures C.Count(Run(s, WriteBoth(s, i, j, user)).db.purse.log, key) == C.Count(s.db.purse.log, key) + 2
       <==> C.Balance(s.db.purse.balances, user) >= a + b
  {
    hide C.Count, Do, Run, Deducting, ToWrite, Inv, C.Balance;
    if CreditsRow(user) in s.locks && s.locks[CreditsRow(user)] == j {
      DeductInTurn(s, j, i, key, user, b, a, opening);
    } else {
      DeductInTurn(s, i, j, key, user, a, b, opening);
    }
  }

  lemma DeductInTurn(s: State, first: nat, second: nat, key: string, user: string, a: int, b: int, opening: map<string, int>)
    requires Inv(s, opening) && first != second && Deducting(s, first, key, user, a) && Deducting(s, second, key, user, b)
    requires Free(s, CreditsRow(user), first)
    ensures C.Count(Run(s, ToWrite(s, first, "") + ToWrite(s, second, "")).db.purse.log, key) == C.Count(s.db.purse.log, key) + 2
       <==> C.Balance(s.db.purse.balances, user) >= a + b
  {
    hide C.Count, Do, Run, Key, Credit, Past, Inv, C.Balance;
    DeductionWrites(s, first, key, user, a, opening);
    var mid := Run(s, ToWrite(s, first, ""));
    DeductingKnown(s, first, key, user, a);
    DeductingKnown(s, second, key, user, b);
    StillPast(s, mid, second, key);
    DeductionCovered(s, first, key, user, a, opening);
    DeductionCovered(s, second, key, user, b, opening);
    DeductionWrites(mid, second, key, user, b, opening);
    RunSplit(s, ToWrite(s, first, ""), ToWrite(s, second, ""));
  }

  lemma DeductingKnown(s: State, i: nat, key: string, user: string, amount: int)
    requires Deducting(s, i, key, user, amount)
    ensures i in s.workers && Past(s, i, key)
  {
    hide Key, Credit;
  }

  // ----- The two places where that happens -----

  predicate CreditsReady(db: Db, id: string, user: string) {
    id in db.refunds && db.refunds[id].kind == CREDITS && db.refunds[id].status == APPROVED
    && db.refunds[id].amount > 0 && db.refunds[id].user == user
  }

  /** A call on an approved CREDITS request that was not granted yet gets past its lookup and holds nothing there. */
  lemma CreditsCallPassesLookup(s: State, i: nat, id: string, user: string)
    requires i !in s.workers && CreditsReady(s.db, id, user) && !C.HasKey(s.db.purse.log, CreditKey(RefundGrant(id)))
    ensures var e := Run(s, [Spawn(i, Process(id)), Step(i, ""), Step(i, "")]);
            && e.db == s.db && e.locks == s.locks && i in e.workers && e.workers == s.workers[i := e.workers[i]]
            && Granting(e, i, CreditKey(RefundGrant(id)), user) && e.workers[i].pc == RowLock
  {
    hide CreditKey, C.HasKey;
    RunThree(s, Spawn(i, Process(id)), Step(i, ""), Step(i, ""));
  }

  lemma NewRequestReady(s: State, id: string, user: string, amount: int, opening: map<string, int>)
    requires Initial(s, opening) && amount > 0
    ensures var e := Run(s, [Create(id, Request(user, CREDITS, amount, None, None, false)), ReviewNow(id, true)]);
            CreditsReady(e.db, id, user) && e.locks == map[] && e.workers == map[] && e.db.purse.log == []
  {
    var create := Create(id, Request(user, CREDITS, amount, None, None, false));
    RunOne(s, create);
    RunSnoc(s, [create], ReviewNow(id, true));
    assert [create] + [ReviewNow(id, true)] == [create, ReviewNow(id, true)];
  }

  /** Ask for it, approve it, and let two calls pass the lookup before either writes. */
  function ProcessTwice(id: string, user: string, amount: int): seq<Action> {
    [Create(id, Request(user, CREDITS, amount, None, None, false)), ReviewNow(id, true)]
    + [Spawn(0, Process(id)), Step(0, ""), Step(0, "")]
    + [Spawn(1, Process(id)), Step(1, ""), Step(1, "")]
    + ([Step(0, ""), Step(0, "")] + [Step(1, ""), Step(1, "")])
  }

  /**
   * A CREDITS request is not exactly-once: from any initial state, two overlapping
   * processRefund calls on one approved request both grant its amount.
   */
  lemma CreditsRefundCanBeGrantedTwice(s: State, id: string, user: string, amount: int, opening: map<string, int>)
    requires Initial(s, opening) && amount > 0
    ensures C.Count(Run(s, ProcessTwice(id, user, amount)).db.purse.log, CreditKey(RefundGrant(id))) == 2
  {
    hide C.Count, Do, Run, CreditKey, Granting, Initial;
    var key := CreditKey(RefundGrant(id));
    var start := [Create(id, Request(user, CREDITS, amount, None, None, false)), ReviewNow(id, true)];
    var one := [Spawn(0, Process(id)), Step(0, ""), Step(0, "")];
    var two := [Spawn(1, Process(id)), Step(1, ""), Step(1, "")];
    NewRequestReady(s, id, user, amount, opening);
    var ready := Run(s, start);
    C.CountZero(ready.db.purse.log, key);
    CreditsCallPassesLookup(ready, 0, id, user);
    var first := Run(ready, one);
    CreditsCallPassesLookup(first, 1, id, user);
    var both := Run(first, two);
    StillGranting(first, both, 0, key, user);
    TwoPastTheLookupBothWrite(both, 0, 1, key, user);
    RunSplit(s, start, one);
    RunSplit(s, start + one, two);
    RunSplit(s, start + one + two, WriteBoth(both, 0, 1, user));
  }

  lemma StillGranting(s: State, e: State, i: nat, key: string, user: string)
    requires Granting(s, i, key, user) && i in e.workers && e.workers[i] == s.workers[i]
    ensures Granting(e, i, key, user)
  {
    hide Key, Credit;
  }

  predicate NewPurchase(s: State, i: nat, b: Job) {
    i !in s.workers && b.Approved? && b.credits.Some? && b.credits.value > 0 && b.event != ""
    && b.event !in s.db.webhooks && WebhookId(b.event) !in s.locks
  }

  lemma PurchaseClaimsEvent(s: State, i: nat, b: Job)
    requires NewPurchase(s, i, b)
    ensures var e := Run(s, [Spawn(i, b), Step(i, ""), Step(i, "")]);
            && e.db == s.db && e.locks == s.locks[WebhookId(b.event) := i] && i in e.workers && e.workers == s.workers[i := e.workers[i]]
            && e.workers[i].job == b && e.workers[i].pc == KeyCheck
  {
    hide CreditKey;
    RunThree(s, Spawn(i, b), Step(i, ""), Step(i, ""));
  }

  /** A new delivery of a purchase not granted yet gets past its lookup, holding its dedup row. */
  lemma PurchasePassesLookup(s: State, i: nat, b: Job)
    requires NewPurchase(s, i, b) && !C.HasKey(s.db.purse.log, CreditKey(ChargeGrant(b.charge)))
    ensures var e := Run(s, [Spawn(i, b), Step(i, ""), Step(i, ""), Step(i, "")]);
            && e.db == s.db && e.locks == s.locks[WebhookId(b.event) := i] && i in e.workers && e.workers == s.workers[i := e.workers[i]]
            && Granting(e, i, CreditKey(ChargeGrant(b.charge)), b.user) && e.workers[i].pc == RowLock
  {
    hide CreditKey, C.HasKey, Run, AfterCredit, DoStart, DoCallGateway, DoDedup, DoFind, DoInsert, DoCheck, DoPost, DoLink, DoRowLock, DoSettle,
         DoRecord, DoResolve, DoCommit, DoFinal, DoCatch, DoWrite;
    PurchaseClaimsEvent(s, i, b);
    RunSnoc(s, [Spawn(i, b), Step(i, ""), Step(i, "")], Step(i, ""));
    assert [Spawn(i, b), Step(i, ""), Step(i, "")] + [Step(i, "")] == [Spawn(i, b), Step(i, ""), Step(i, ""), Step(i, "")];
  }

  function DeliverTwice(b: Job, c: Job): seq<Action> {
    [Spawn(0, b), Step(0, ""), Step(0, ""), Step(0, "")]
    + [Spawn(1, c), Step(1, ""), Step(1, ""), Step(1, "")]
    + ([Step(0, ""), Step(0, "")] + [Step(1, ""), Step(1, "")])
  }

  /**
   * Nor is a purchase that arrives under two event ids: deduplication is by event id alone,
   * and two overlapping deliveries of one charge both grant its credits.
   */
  lemma PurchaseUnderTwoEventsCanBeGrantedTwice(s: State, b: Job, c: Job, opening: map<string, int>)
    requires Initial(s, opening) && b.Approved? && b.credits.Some? && b.credits.value > 0
    requires c.Approved? && c == Approved(c.event, b.charge, b.user, b.credits, b.cents)
    requires b.event != "" && c.event != "" && b.event != c.event
    ensures C.Count(Run(s, DeliverTwice(b, c)).db.purse.log, CreditKey(ChargeGrant(b.charge))) == 2
  {
    hide C.Count, Do, Run, CreditKey, Granting;
    var key := CreditKey(ChargeGrant(b.charge));
    var one := [Spawn(0, b), Step(0, ""), Step(0, ""), Step(0, "")];
    var two := [Spawn(1, c), Step(1, ""), Step(1, ""), Step(1, "")];
    assert s.db.purse.log == [] && s.locks == map[] && s.db.webhooks == map[] && s.workers == map[];
    hide Initial;
    C.CountZero(s.db.purse.log, key);
    PurchasePassesLookup(s, 0, b);
    var first := Run(s, one);
    PurchasePassesLookup(first, 1, c);
    var both := Run(first, two);
    StillGranting(first, both, 0, key, b.user);
    TwoPastTheLookupBothWrite(both, 0, 1, key, b.user);
    RunSplit(s, one, two);
    RunSplit(s, one + two, WriteBoth(both, 0, 1, b.user));
  }

  // ----- Credits survive a rollback -----

  /**
   * The deduction is not atomic with the refund: a payment refund whose transaction fails
   * after its credits call returned keeps the deduction and nothing else.
   */
  lemma DeductionSurvivesRollback(s: State, i: nat, mint: string, id: string, opening: map<string, int>)
    requires Inv(s, opening) && i in s.workers && s.workers[i].job == Process(id) && s.workers[i].pc == Settle && s.workers[i].snap.kind == PAYMENT
    ensures id in s.db.refunds
    ensures var e := Run(s, [Step(i, mint), FailCall(i)]);
            var r := s.db.refunds[id];
            && e.db == s.db.(purse := e.db.purse)
            && e.db.purse.log == s.db.purse.log
               + [C.CreditTxn(r.user, -r.amount, C.USAGE, Some(RefundKey(id)), Some(RefundDeduct(id)))]
  {
    hide Inv, CreditKey, Owned, Moved, DoSettle, Throw;
    SnapFacts(s, i, id, opening);
    var mid := Do(s, Step(i, mint));
    SettleOwned(s, i);
    SettleStays(s, i);
    ThrowIsSilent(mid, i);
    RunOne(s, Step(i, mint));
    RunSnoc(s, [Step(i, mint)], FailCall(i));
    assert [Step(i, mint)] + [FailCall(i)] == [Step(i, mint), FailCall(i)];
  }

  lemma SettleStays(s: State, i: nat)
    requires i in s.workers && s.workers[i].pc == Settle
    ensures i in DoSettle(s, i, s.workers[i]).workers
  {
    hide DoSettle, Owned;
    SettleOwned(s, i);
  }

  // ----- One table of delivery ids -----

  lemma NoGrantForClaimed(db: Db, gate: Gate, locks: map<Resource, nat>, i: nat, w: Worker, hash: string)
    requires WorkerOk(db, gate, locks, i, w) && w.pc == Settle && hash in db.webhooks
    ensures Key(w) != CreditKey(SolanaGrant(hash))
  {
    hide LedgerKey, CreditKey, DisputeKey, PostOk, CallOk, HoldsOk, L.HasKey, L.HasId, HasDispute;
    CreditKeysSeparate(Credit(w).source, SolanaGrant(hash));
  }

  lemma ClaimedStep(s: State, i: nat, mint: string, hash: string, opening: map<string, int>)
    requires Inv(s, opening) && i in s.workers && hash in s.db.webhooks
    ensures C.Count(Advance(s, i, mint).db.purse.log, CreditKey(SolanaGrant(hash))) == C.Count(s.db.purse.log, CreditKey(SolanaGrant(hash)))
  {
    hide Inv, Advance, C.Count, CreditKey, OwnRefunds, OwnDisputes, OwnTxns, OwnDelivery, WorkerOk, RowsOk, Credit, Key;
    var w := s.workers[i];
    StepIsOwned(s, i, mint, opening);
    if Advance(s, i, mint).db.purse.log != s.db.purse.log {
      OneWorker(s, i, opening);
      NoGrantForClaimed(s.db, s.gate, s.locks, i, w, hash);
      RowKey(w);
      C.CountAppend(s.db.purse.log, CreditRow(w), CreditKey(SolanaGrant(hash)));
    }
  }

  lemma ClaimedDo(s: State, a: Action, hash: string, opening: map<string, int>)
    requires Inv(s, opening) && hash in s.db.webhooks
    ensures C.Count(Do(s, a).db.purse.log, CreditKey(SolanaGrant(hash))) == C.Count(s.db.purse.log, CreditKey(SolanaGrant(hash)))
  {
    hide Inv, Advance, Throw, Finish, Unanswered, Accepted, C.Count, CreditKey;
    match a
    case Create(_, _) =>
    case ReviewNow(_, _) =>
    case RegisterCharge(_, _, _) =>
    case Spawn(_, _) =>
    case Step(i, mint) => if i in s.workers { ClaimedStep(s, i, mint, hash, opening); }
    case FailCall(i) => if i in s.workers { ThrowIsSilent(s, i); }
    case LoseAnswer(i) => if i in s.workers { UnansweredIsSilent(s, i); }
    case Crash(i) => if i in s.workers { FinishSilent(s, i); }
  }

  /**
   * Both kinds of delivery share one table of ids, and an id in it settles nothing any more.
   * For a settled hash that is the promise; for a hash whose id a card event has used, it
   * means its credits are never granted at all.
   */
  lemma {:induction false} ClaimedHashIsFrozen(s: State, acts: seq<Action>, hash: string, opening: map<string, int>)
    requires Inv(s, opening) && hash in s.db.webhooks
    ensures var e := Run(s, acts);
            && hash in e.db.webhooks && e.db.webhooks[hash] == s.db.webhooks[hash]
            && C.Count(e.db.purse.log, CreditKey(SolanaGrant(hash))) == C.Count(s.db.purse.log, CreditKey(SolanaGrant(hash)))
  {
    hide Inv, Do, C.Count, CreditKey, Evolves, GateGrows;
    if acts != [] {
      var n := |acts| - 1;
      ClaimedHashIsFrozen(s, acts[..n], hash, opening);
      ReachableFrom(s, acts[..n], opening);
      var mid := Run(s, acts[..n]);
      DoGood(mid, acts[n], opening);
      ClaimedDo(mid, acts[n], hash, opening);
      WebhookStays(mid.db, Do(mid, acts[n]).db, hash);
    }
  }
}
