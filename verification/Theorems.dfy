/** What the invariant means for money, over every run of the engine. */
module Theorems {
  import opened Prelude
  import opened Keys
  import opened Engine
  import opened Invariant
  import opened Commits
  import opened Machine
  import opened Totals
  import opened Once
  import G = Gateways
  import L = Ledger
  import C = Credits

  lemma {:induction false} RunSplit(s: State, xs: seq<Action>, ys: seq<Action>)
    ensures Run(s, xs + ys) == Run(Run(s, xs), ys)
  {
    hide Do;
    if ys == [] {
      assert xs + ys == xs;
    } else {
      var n := |ys| - 1;
      assert (xs + ys)[..|xs + ys| - 1] == xs + ys[..n];
      RunSplit(s, xs, ys[..n]);
    }
  }

  lemma RunNone(s: State)
    ensures Run(s, []) == s
  {
  }

  lemma RunOne(s: State, a: Action)
    ensures Run(s, [a]) == Do(s, a)
  {
    hide Do;
    assert [a][..0] == [];
    assert Run(s, [a][..0]) == s;
  }

  lemma RunSnoc(s: State, acts: seq<Action>, a: Action)
    ensures Run(s, acts + [a]) == Do(Run(s, acts), a)
  {
    hide Do;
    assert (acts + [a])[..|acts|] == acts;
  }

  lemma RunTwo(s: State, a: Action, b: Action)
    ensures Run(s, [a, b]) == Do(Do(s, a), b)
  {
    hide Do;
    RunOne(s, a);
    RunSnoc(s, [a], b);
    assert [a] + [b] == [a, b];
  }

  lemma RunThree(s: State, a: Action, b: Action, c: Action)
    ensures Run(s, [a, b, c]) == Do(Do(Do(s, a), b), c)
  {
    hide Do;
    RunOne(s, a);
    RunSnoc(s, [a], b);
    assert [a] + [b] == [a, b];
    RunSnoc(s, [a, b], c);
    assert [a, b] + [c] == [a, b, c];
  }

  lemma RunFour(s: State, a: Action, b: Action, c: Action, d: Action)
    ensures Run(s, [a, b, c, d]) == Do(Do(Do(Do(s, a), b), c), d)
  {
    hide Do;
    RunThree(s, a, b, c);
    RunSnoc(s, [a, b, c], d);
    assert [a, b, c] + [d] == [a, b, c, d];
  }

  /** The rows of a prefix of a run evolve into the rows at its end. */
  lemma PrefixEvolves(s: State, acts: seq<Action>, n: nat, opening: map<string, int>)
    requires Initial(s, opening) && n <= |acts|
    ensures Inv(Run(s, acts[..n]), opening)
    ensures Evolves(Run(s, acts[..n]).db, Run(s, acts).db) && GateGrows(Run(s, acts[..n]).gate, Run(s, acts).gate)
  {
    hide Inv, Initial, Evolves, GateGrows, Do;
    Reachable(s, acts[..n], opening);
    assert acts == acts[..n] + acts[n..];
    RunSplit(s, acts[..n], acts[n..]);
    ReachableFrom(Run(s, acts[..n]), acts[n..], opening);
  }

  // ----- Ledger and credits -----

  /** In every reachable state the books are sound and the trial balance is zero. */
  lemma LedgerAlwaysBalances(s: State, acts: seq<Action>, opening: map<string, int>)
    requires Initial(s, opening)
    ensures L.Sound(Run(s, acts).db.books)
    ensures L.SumOf(Run(s, acts).db.books.balances, {L.ASSET, L.EXPENSE})
         == L.SumOf(Run(s, acts).db.books.balances, {L.LIABILITY, L.REVENUE, L.EQUITY})
  {
    hide Initial, L.Sound, WorkerOk;
    Reachable(s, acts, opening);
    RowsPartsOf(Run(s, acts), opening);
    L.TrialBalance(Run(s, acts).db.books);
  }

  /** In every reachable state no credits balance is negative, and each is its opening balance plus its log. */
  lemma CreditsAlwaysReconcile(s: State, acts: seq<Action>, opening: map<string, int>)
    requires Initial(s, opening)
    ensures C.Sound(Run(s, acts).db.purse, opening)
  {
    hide Initial, WorkerOk, C.Sound, L.Sound, TxnOk, RefundOk, DisputeOk, CreditOk, SettledOk, GateOk, DisputesUnique,
         ChargesUnique;
    Reachable(s, acts, opening);
  }

  // ----- Payment refunds -----

  lemma RefundPoliced(s: State, id: string, opening: map<string, int>)
    requires Inv(s, opening)
    requires id in s.db.refunds ==> s.db.refunds[id].kind == PAYMENT
    ensures Policed(s, CreditKey(RefundDeduct(id)), RefundRow(id))
  {
    hide RowsOk, WorkerOk, CreditKey;
    forall i | i in s.workers && InCredit(s.workers[i].pc) && Key(s.workers[i]) == CreditKey(RefundDeduct(id))
      ensures Guard(s.workers[i]) == Some(RefundRow(id))
    {
      var w := s.workers[i];
      CreditKeysSeparate(Credit(w).source, RefundDeduct(id));
      CreditCaller(s.db, s.gate, s.locks, i, w);
    }
  }

  /** Only calls that have a credits call are in one, and a refund's knows its row. */
  lemma CreditCaller(db: Db, gate: Gate, locks: map<Resource, nat>, i: nat, w: Worker)
    requires WorkerOk(db, gate, locks, i, w) && InCredit(w.pc)
    ensures !w.job.Review? && !w.job.Other? && !w.job.Evidence?
    ensures w.job.Process? ==> w.job.refund in db.refunds && SameTerms(w.snap, db.refunds[w.job.refund])
  {
    hide LedgerKey, CreditKey, DisputeKey, AbsentOk, PostOk, HoldsOk, Credit;
    assert w.job.Process? ==> ProcessOk(db, gate, w);
  }

  /** At most one credit transaction is ever written for a payment refund. */
  lemma RefundDeductsOnce(s: State, acts: seq<Action>, id: string, opening: map<string, int>)
    requires Initial(s, opening)
    requires id in Run(s, acts).db.refunds && Run(s, acts).db.refunds[id].kind == PAYMENT
    ensures C.Count(Run(s, acts).db.purse.log, CreditKey(RefundDeduct(id))) <= 1
  {
    hide Initial, Inv, CreditKey, Policed, Do, C.Count;
    forall n | 0 <= n <= |acts| ensures Policed(Run(s, acts[..n]), CreditKey(RefundDeduct(id)), RefundRow(id)) {
      PrefixEvolves(s, acts, n, opening);
      RefundPoliced(Run(s, acts[..n]), id, opening);
    }
    PolicedKeyIsUsedOnce(s, acts, CreditKey(RefundDeduct(id)), RefundRow(id), opening);
  }

  lemma SourceMeansBooked(db: Db, gate: Gate, opening: map<string, int>, id: string)
    requires RowsOk(db, gate, opening) && id in db.refunds
    ensures HasSource(db.books.txns, RefundOf(id)) <==> db.refunds[id].paymentRefundId.Some?
  {
    hide LedgerKey, L.Sound, C.Sound;
    assert RefundOk(db, gate, id);
    if HasSource(db.books.txns, RefundOf(id)) {
      var k :| 0 <= k < |db.books.txns| && db.books.txns[k].source == Some(RefundOf(id));
      assert TxnOk(db, db.books.txns[k]);
    }
  }

  /** What a refund request has moved in the ledger: everything once, or nothing. */
  lemma RefundMoved(db: Db, gate: Gate, opening: map<string, int>, id: string, a: L.Account)
    requires RowsOk(db, gate, opening) && id in db.refunds
    ensures var r := db.refunds[id];
            MovedBy(db.books.txns, RefundOf(id), a)
            == if r.paymentRefundId.Some? && (a == L.Account("test-admin-1", L.REVENUE) || a == L.Account(r.user, L.ASSET))
               then -r.amount else 0
  {
    hide LedgerKey, L.Sound, C.Sound;
    SourceMeansBooked(db, gate, opening, id);
    if db.refunds[id].paymentRefundId.Some? {
      var k :| 0 <= k < |db.books.txns| && db.books.txns[k].source == Some(RefundOf(id));
      assert TxnOk(db, db.books.txns[k]);
      SourceMoves(db, gate, opening, RefundOf(id), k, a);
      ReversalMoves(db.refunds[id].user, db.refunds[id].amount, a);
    } else {
      NothingMoved(db.books.txns, RefundOf(id), a);
    }
  }

  lemma RefundFacts(db: Db, gate: Gate, opening: map<string, int>, id: string)
    requires RowsOk(db, gate, opening) && id in db.refunds
    ensures RefundOk(db, gate, id)
    ensures WroteAny(db.purse.log, RefundDeduct(id)) ==> db.refunds[id].kind == PAYMENT && PaidSomehow(gate, db.refunds[id], id)
    ensures WroteAny(db.purse.log, RefundGrant(id)) ==> db.refunds[id].kind == CREDITS
  {
    forall k | 0 <= k < |db.purse.log| ensures CreditOk(db, gate, db.purse.log[k]) {
    }
  }

  /**
   * Any number of overlapping, failing, dying and repeated processRefund calls on one
   * PAYMENT request move the money as one refund would or not at all:
   * revenue and the user's asset account each fall by the refund's amount once and no other
   * account moves, exactly when paymentRefundId is set; that id is the one the gateway
   * logged, for the full amount; PROCESSED and a credits deduction each imply the gateway
   * refunded; and the deduction is written at most once.
   */
  lemma PaymentRefundIsExactlyOnce(s: State, acts: seq<Action>, id: string, opening: map<string, int>)
    requires Initial(s, opening)
    requires id in Run(s, acts).db.refunds && Run(s, acts).db.refunds[id].kind == PAYMENT
    ensures var e := Run(s, acts);
            var r := e.db.refunds[id];
            && (forall a :: MovedBy(e.db.books.txns, RefundOf(id), a)
                  == if r.paymentRefundId.Some? && (a == L.Account("test-admin-1", L.REVENUE) || a == L.Account(r.user, L.ASSET))
                     then -r.amount else 0)
            && (r.paymentRefundId.Some? ==> GatewayPaid(e.gate, r, id, r.paymentRefundId.value))
            && (r.status == PROCESSED ==> r.paymentRefundId.Some?)
            && (WroteAny(e.db.purse.log, RefundDeduct(id)) ==> PaidSomehow(e.gate, r, id))
            && C.Count(e.db.purse.log, CreditKey(RefundDeduct(id))) <= 1
  {
    hide Initial, RowsOk, WorkerOk, CreditKey, Do, C.Count, MovedBy, GatewayPaid;
    Reachable(s, acts, opening);
    var e := Run(s, acts);
    RefundDeductsOnce(s, acts, id, opening);
    RefundFacts(e.db, e.gate, opening, id);
    forall a ensures MovedBy(e.db.books.txns, RefundOf(id), a)
                  == if && e.db.refunds[id].paymentRefundId.Some?
                        && (a == L.Account("test-admin-1", L.REVENUE) || a == L.Account(e.db.refunds[id].user, L.ASSET))
                     then -e.db.refunds[id].amount else 0
    {
      RefundMoved(e.db, e.gate, opening, id, a);
    }
  }

  /** A CREDITS request touches neither ledger nor gateway id, and is PROCESSED only with its grant of exactly its amount. */
  lemma CreditRefundGrants(s: State, acts: seq<Action>, id: string, opening: map<string, int>)
    requires Initial(s, opening)
    requires id in Run(s, acts).db.refunds && Run(s, acts).db.refunds[id].kind == CREDITS
    ensures var e := Run(s, acts);
            var r := e.db.refunds[id];
            && r.paymentRefundId.None?
            && (forall a :: MovedBy(e.db.books.txns, RefundOf(id), a) == 0)
            && !WroteAny(e.db.purse.log, RefundDeduct(id))
            && (r.status == PROCESSED ==> Wrote(e.db.purse.log, RefundGrant(id), r.user, r.amount))
  {
    hide Initial, RowsOk, WorkerOk, CreditKey, Do, MovedBy, WroteAny, Wrote;
    Reachable(s, acts, opening);
    var e := Run(s, acts);
    RefundFacts(e.db, e.gate, opening, id);
    forall a ensures MovedBy(e.db.books.txns, RefundOf(id), a) == 0 {
      RefundMoved(e.db, e.gate, opening, id, a);
    }
  }

  /** Once set, paymentRefundId never changes again, and neither does the gateway's record of it. */
  lemma PaymentRefundIdIsWriteOnce(s: State, acts: seq<Action>, n: nat, id: string, opening: map<string, int>)
    requires Initial(s, opening) && n <= |acts|
    requires id in Run(s, acts[..n]).db.refunds && Run(s, acts[..n]).db.refunds[id].paymentRefundId.Some?
    ensures var r := Run(s, acts[..n]).db.refunds[id];
            && id in Run(s, acts).db.refunds
            && Run(s, acts).db.refunds[id].paymentRefundId == r.paymentRefundId
            && GatewayPaid(Run(s, acts).gate, r, id, r.paymentRefundId.value)
  {
    hide Initial, RowsOk, WorkerOk, CreditKey, Do, GateGrows, GatewayPaid;
    PrefixEvolves(s, acts, n, opening);
    var p := Run(s, acts[..n]);
    RefundFacts(p.db, p.gate, opening, id);
    PaidStays(p.gate, Run(s, acts).gate, p.db.refunds[id], p.db.refunds[id], id, p.db.refunds[id].paymentRefundId.value);
  }

  // ----- Chargebacks and disputes -----

  lemma ChargebackPoliced(s: State, charge: string, opening: map<string, int>)
    requires Inv(s, opening)
    ensures Policed(s, CreditKey(ChargebackDeduct(charge)), DisputeId(DisputeKey(charge)))
  {
    hide RowsOk, WorkerOk, CreditKey, DisputeKey;
    forall i | i in s.workers && InCredit(s.workers[i].pc) && Key(s.workers[i]) == CreditKey(ChargebackDeduct(charge))
      ensures Guard(s.workers[i]) == Some(DisputeId(DisputeKey(charge)))
    {
      var w := s.workers[i];
      CreditKeysSeparate(Credit(w).source, ChargebackDeduct(charge));
      CreditCaller(s.db, s.gate, s.locks, i, w);
    }
  }

  lemma OneDisputePerCharge(db: Db, gate: Gate, opening: map<string, int>, d: string, e: string)
    requires RowsOk(db, gate, opening) && d in db.disputes && e in db.disputes && db.disputes[d].charge == db.disputes[e].charge
    ensures d == e
  {
    hide DisputeKey, L.Sound, C.Sound;
    assert DisputeOk(db, db.disputes[d]) && DisputeOk(db, db.disputes[e]);
  }

  lemma ReversalMoved(db: Db, gate: Gate, opening: map<string, int>, d: string, a: L.Account)
    requires RowsOk(db, gate, opening) && d in db.disputes
    ensures var x := db.disputes[d];
            MovedBy(db.books.txns, ReversalOf(x.charge), a)
                == if a == L.Account("test-admin-1", L.REVENUE) || a == L.Account(x.user, L.ASSET)
                   then -x.amount else 0
  {
    hide LedgerKey, DisputeKey, L.Sound, C.Sound;
    var x := db.disputes[d];
    assert DisputeOk(db, x);
    var k :| 0 <= k < |db.books.txns| && Some(db.books.txns[k].id) == x.reversal && db.books.txns[k].source == Some(ReversalOf(x.charge))
             && db.books.txns[k].entries == ReversalLines(x.user, x.amount);
    SourceMoves(db, gate, opening, ReversalOf(x.charge), k, a);
    ReversalMoves(x.user, x.amount, a);
  }

  lemma NoDisputeNoReversal(db: Db, gate: Gate, opening: map<string, int>, charge: string)
    requires RowsOk(db, gate, opening) && !HasDisputeOn(db.disputes, charge)
    ensures !HasSource(db.books.txns, ReversalOf(charge))
  {
    hide LedgerKey, L.Sound, C.Sound;
    forall k | 0 <= k < |db.books.txns| ensures db.books.txns[k].source != Some(ReversalOf(charge)) {
      assert TxnOk(db, db.books.txns[k]);
    }
  }

  /**
   * Over any interleaving of chargeback deliveries, replays, different event ids for one
   * charge, losers of the unique keys and rollbacks: a charge has at most one dispute, its
   * reversal is posted exactly once if it has one and never otherwise, for exactly the
   * dispute's amount, the dispute names that posting, and its credits are deducted at most
   * once.
   */
  lemma ChargebackIsExactlyOnce(s: State, acts: seq<Action>, charge: string, opening: map<string, int>)
    requires Initial(s, opening)
    ensures var e := Run(s, acts);
            && (forall d, d' | d in e.db.disputes && d' in e.db.disputes ::
                  e.db.disputes[d].charge == charge == e.db.disputes[d'].charge ==> d == d')
            && (forall d :: d in e.db.disputes && e.db.disputes[d].charge == charge ==>
                  e.db.disputes[d].reversal.Some? && ReversedBy(e.db.books.txns, e.db.disputes[d]))
            && (forall d, a :: d in e.db.disputes && e.db.disputes[d].charge == charge ==>
                  MovedBy(e.db.books.txns, ReversalOf(charge), a)
                  == if a == L.Account("test-admin-1", L.REVENUE) || a == L.Account(e.db.disputes[d].user, L.ASSET)
                     then -e.db.disputes[d].amount else 0)
            && (!HasDisputeOn(e.db.disputes, charge) ==> forall a :: MovedBy(e.db.books.txns, ReversalOf(charge), a) == 0)
            && C.Count(e.db.purse.log, CreditKey(ChargebackDeduct(charge))) <= 1
  {
    hide Initial, WorkerOk, CreditKey, Do, C.Count, MovedBy, Policed, L.Sound, C.Sound, ReversedBy, LedgerKey, RefundOk,
         CreditOk, GateOk;
    Reachable(s, acts, opening);
    var e := Run(s, acts);
    forall d, d' | d in e.db.disputes && d' in e.db.disputes && e.db.disputes[d].charge == charge && e.db.disputes[d'].charge == charge
      ensures d == d'
    {
      OneDisputePerCharge(e.db, e.gate, opening, d, d');
    }
    forall d, a | d in e.db.disputes && e.db.disputes[d].charge == charge
      ensures MovedBy(e.db.books.txns, ReversalOf(charge), a)
                  == if a == L.Account("test-admin-1", L.REVENUE) || a == L.Account(e.db.disputes[d].user, L.ASSET)
                     then -e.db.disputes[d].amount else 0
    {
      ReversalMoved(e.db, e.gate, opening, d, a);
    }
    if !HasDisputeOn(e.db.disputes, charge) {
      NoDisputeNoReversal(e.db, e.gate, opening, charge);
      forall a ensures MovedBy(e.db.books.txns, ReversalOf(charge), a) == 0 {
        NothingMoved(e.db.books.txns, ReversalOf(charge), a);
      }
    }
    forall n | 0 <= n <= |acts| ensures Policed(Run(s, acts[..n]), CreditKey(ChargebackDeduct(charge)), DisputeId(DisputeKey(charge))) {
      Reachable(s, acts[..n], opening);
      ChargebackPoliced(Run(s, acts[..n]), charge, opening);
    }
    PolicedKeyIsUsedOnce(s, acts, CreditKey(ChargebackDeduct(charge)), DisputeId(DisputeKey(charge)), opening);
  }

  /** What a dispute has moved in the ledger, all its postings together. */
  function DisputeMoves(txns: seq<L.Txn>, d: string, charge: string, a: L.Account): int {
    MovedBy(txns, ReversalOf(charge), a) + MovedBy(txns, WonOf(d), a) + MovedBy(txns, LostOf(d), a)
  }

  ghost function FeeOf(txns: seq<L.Txn>, d: string): int {
    MovedBy(txns, LostOf(d), L.Account("test-admin-1", L.EXPENSE))
  }

  lemma WonMoved(db: Db, gate: Gate, opening: map<string, int>, d: string, a: L.Account)
    requires RowsOk(db, gate, opening) && d in db.disputes
    ensures var x := db.disputes[d];
            MovedBy(db.books.txns, WonOf(d), a)
            == if HasSource(db.books.txns, WonOf(d)) && (a == L.Account("test-admin-1", L.REVENUE) || a == L.Account(x.user, L.ASSET))
               then x.amount else 0
  {
    hide LedgerKey, L.Sound, C.Sound;
    if HasSource(db.books.txns, WonOf(d)) {
      var k :| 0 <= k < |db.books.txns| && db.books.txns[k].source == Some(WonOf(d));
      assert TxnOk(db, db.books.txns[k]);
      SourceMoves(db, gate, opening, WonOf(d), k, a);
      WonMoves(db.disputes[d].user, db.disputes[d].amount, a);
    } else {
      NothingMoved(db.books.txns, WonOf(d), a);
    }
  }

  lemma LostMoved(db: Db, gate: Gate, opening: map<string, int>, d: string, a: L.Account)
    requires RowsOk(db, gate, opening) && d in db.disputes
    ensures var fee := FeeOf(db.books.txns, d);
            && (HasSource(db.books.txns, LostOf(d)) <==> fee > 0) && fee >= 0
            && MovedBy(db.books.txns, LostOf(d), a)
               == if a == L.Account("test-admin-1", L.EXPENSE) then fee else if a == L.Account(db.disputes[d].user, L.ASSET) then -fee else 0
  {
    hide LedgerKey, L.Sound, C.Sound;
    if HasSource(db.books.txns, LostOf(d)) {
      var k :| 0 <= k < |db.books.txns| && db.books.txns[k].source == Some(LostOf(d));
      var t := db.books.txns[k];
      assert TxnOk(db, t);
      SourceMoves(db, gate, opening, LostOf(d), k, a);
      SourceMoves(db, gate, opening, LostOf(d), k, L.Account("test-admin-1", L.EXPENSE));
      FeeMoves(db.disputes[d].user, t.entries[0].amount, a);
      FeeMoves(db.disputes[d].user, t.entries[0].amount, L.Account("test-admin-1", L.EXPENSE));
    } else {
      NothingMoved(db.books.txns, LostOf(d), a);
      NothingMoved(db.books.txns, LostOf(d), L.Account("test-admin-1", L.EXPENSE));
    }
  }

  /**
   * Even when WON races LOST races evidence, a dispute's postings add up to one of four
   * results: the reversal stands or is exactly undone, with or without one fee. Revenue is
   * down by the dispute's amount or unchanged, never up; expense is zero or one fee.
   */
  lemma DisputeNeverCreatesMoney(s: State, acts: seq<Action>, d: string, a: L.Account, opening: map<string, int>)
    requires Initial(s, opening) && d in Run(s, acts).db.disputes
    ensures var db := Run(s, acts).db;
            var x := db.disputes[d];
            var won := HasSource(db.books.txns, WonOf(d));
            var fee := FeeOf(db.books.txns, d);
            && fee >= 0 && (fee > 0 <==> HasSource(db.books.txns, LostOf(d)))
            && DisputeMoves(db.books.txns, d, x.charge, a)
               == if a == L.Account("test-admin-1", L.REVENUE) then (if won then 0 else -x.amount)
                  else if a == L.Account("test-admin-1", L.EXPENSE) then fee
                  else if a == L.Account(x.user, L.ASSET) then (if won then 0 else -x.amount) - fee
                  else 0
  {
    hide Initial, RowsOk, WorkerOk, Do, MovedBy, HasSource;
    Reachable(s, acts, opening);
    var e := Run(s, acts);
    ReversalMoved(e.db, e.gate, opening, d, a);
    WonMoved(e.db, e.gate, opening, d, a);
    LostMoved(e.db, e.gate, opening, d, a);
  }

  // ----- Deliveries -----

  lemma SolanaPoliced(s: State, hash: string, opening: map<string, int>)
    requires Inv(s, opening)
    ensures Policed(s, CreditKey(SolanaGrant(hash)), WebhookId(hash))
  {
    hide RowsOk, WorkerOk, CreditKey;
    forall i | i in s.workers && InCredit(s.workers[i].pc) && Key(s.workers[i]) == CreditKey(SolanaGrant(hash))
      ensures Guard(s.workers[i]) == Some(WebhookId(hash))
    {
      var w := s.workers[i];
      CreditKeysSeparate(Credit(w).source, SolanaGrant(hash));
      CreditCaller(s.db, s.gate, s.locks, i, w);
    }
  }

  lemma {:induction false} WroteCounts(log: seq<C.CreditTxn>, source: CreditSource)
    requires WroteAny(log, source) && forall k :: 0 <= k < |log| && log[k].source == Some(source) ==> log[k].key == Some(CreditKey(source))
    ensures C.Count(log, CreditKey(source)) >= 1
  {
    hide CreditKey;
    C.CountZero(log, CreditKey(source));
  }

  lemma ChargesKnown(db: Db, gate: Gate, opening: map<string, int>, h: string, source: CreditSource)
    requires RowsOk(db, gate, opening)
    ensures h in db.webhooks && db.webhooks[h] == G.SOLANA ==> SettledOk(db, h)
    ensures forall k :: 0 <= k < |db.purse.log| && db.purse.log[k].source == Some(source) ==> db.purse.log[k].key == Some(CreditKey(source))
    ensures ChargesUnique(db.charges)
  {
    hide CreditKey, L.Sound, C.Sound;
    forall k | 0 <= k < |db.purse.log| && db.purse.log[k].source == Some(source) ensures db.purse.log[k].key == Some(CreditKey(source)) {
      assert CreditOk(db, gate, db.purse.log[k]);
    }
  }

  /**
   * For any sequence and interleaving of confirmations of one hash, at any depths, with
   * failures: its credits are granted at most once and exactly once if it is settled, it has
   * at most one charge record and one if it is settled, and once settled it stays settled.
   */
  lemma SolanaSettlesOnce(s: State, acts: seq<Action>, n: nat, hash: string, opening: map<string, int>)
    requires Initial(s, opening) && n <= |acts|
    ensures var e := Run(s, acts);
            && C.Count(e.db.purse.log, CreditKey(SolanaGrant(hash))) <= 1
            && ChargesUnique(e.db.charges)
            && (hash in e.db.webhooks && e.db.webhooks[hash] == G.SOLANA ==>
                  C.Count(e.db.purse.log, CreditKey(SolanaGrant(hash))) == 1 && HasCharge(e.db.charges, G.SOLANA, hash))
            && (hash in Run(s, acts[..n]).db.webhooks ==>
                  hash in e.db.webhooks && e.db.webhooks[hash] == Run(s, acts[..n]).db.webhooks[hash])
  {
    hide Initial, RowsOk, WorkerOk, CreditKey, Do, C.Count, Policed, ChargesUnique, HasCharge, WroteAny;
    Reachable(s, acts, opening);
    PrefixEvolves(s, acts, n, opening);
    var e := Run(s, acts);
    forall m | 0 <= m <= |acts| ensures Policed(Run(s, acts[..m]), CreditKey(SolanaGrant(hash)), WebhookId(hash)) {
      Reachable(s, acts[..m], opening);
      SolanaPoliced(Run(s, acts[..m]), hash, opening);
    }
    PolicedKeyIsUsedOnce(s, acts, CreditKey(SolanaGrant(hash)), WebhookId(hash), opening);
    ChargesKnown(e.db, e.gate, opening, hash, SolanaGrant(hash));
    if hash in e.db.webhooks && e.db.webhooks[hash] == G.SOLANA {
      WroteCounts(e.db.purse.log, SolanaGrant(hash));
    }
  }

  /** A confirmation below the required depth is acknowledged and changes no committed row. */
  lemma ShallowConfirmationDoesNothing(s: State, i: nat, mint: string)
    requires i in s.workers && s.workers[i].pc == Start && s.workers[i].job.Confirm? && s.workers[i].job.depth < s.required
    ensures var s' := Do(s, Step(i, mint));
            s'.db == s.db && s'.gate == s.gate && s'.workers[i].pc == Done
            && forall mint' :: Do(s', Step(i, mint')) == s'
  {
  }
}
