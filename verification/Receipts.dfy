/**
 * What each call of the services has written when it succeeds, and when it fails, row by row.
 *
 * The functions of RefundCalls, DisputeCalls and DeliveryCalls say how a call computes what it
 * leaves. Here the result is spelled out with the accounts, keys, users and amounts that the
 * caller and the stored row name, and with none of the engine's own functions.
 */
module Receipts {
  import opened Prelude
  import opened Keys
  import opened Engine
  import opened Invariant
  import opened Steps
  import opened Totals
  import opened Calls
  import R = RefundCalls
  import O = DisputeCalls
  import D = DeliveryCalls
  import G = Gateways
  import L = Ledger
  import C = Credits

  // ----- One posting, one credit row -----

  function HeldBy(b: L.Books, a: L.Account): int {
    if a in b.balances then b.balances[a] else 0
  }

  /** One ledger transaction is added, `debit` for the amount against `credit`, and each balance moves by its change. */
  ghost predicate PostingEntered(b: L.Books, b': L.Books, id: string, key: string, source: LedgerSource,
      debit: L.Account, credit: L.Account, amount: int, onDebit: int, onCredit: int)
  {
    && b'.txns == b.txns + [L.Txn(id, Some(key), Some(source), [L.Entry(debit, L.DEBIT, amount), L.Entry(credit, L.CREDIT, amount)])]
    && forall a :: HeldBy(b', a) == HeldBy(b, a) + (if a == debit then onDebit else if a == credit then onCredit else 0)
  }

  /** One credit row is added and its user's balance moves by its amount. */
  ghost predicate RowEntered(p: C.Purse, p': C.Purse, user: string, amount: int, kind: C.CreditType, key: string, source: CreditSource) {
    && p'.log == p.log + [C.CreditTxn(user, amount, kind, Some(key), Some(source))]
    && p'.balances == p.balances[user := (if user in p.balances then p.balances[user] else 0) + amount]
  }

  /** A grant that was made goes in, unless its key is there. */
  ghost predicate GrantEntered(p: C.Purse, p': C.Purse, made: bool, user: string, amount: int, kind: C.CreditType, key: string,
      source: CreditSource)
  {
    if made && amount > 0 && !C.HasKey(p.log, key) then RowEntered(p, p', user, amount, kind, key, source) else p' == p
  }

  /** A deduction that was made goes in, unless its key is there or the balance does not cover it. */
  ghost predicate DeductionEntered(p: C.Purse, p': C.Purse, made: bool, user: string, amount: int, key: string, source: CreditSource) {
    if made && amount > 0 && !C.HasKey(p.log, key) && user in p.balances && p.balances[user] >= amount
    then RowEntered(p, p', user, -amount, C.USAGE, key, source)
    else p' == p
  }

  lemma RecordedIsBooked(b: L.Books, id: string, source: LedgerSource, debit: L.Account, credit: L.Account, amount: int)
    requires !L.HasKey(b.txns, LedgerKey(source)) && debit != credit
    ensures var b' := Recorded(b, source, [L.Entry(debit, L.DEBIT, amount), L.Entry(credit, L.CREDIT, amount)], id);
            PostingEntered(b, b', id, LedgerKey(source), source, debit, credit, amount,
                   L.BalanceChange(debit.kind, L.DEBIT, amount), L.BalanceChange(credit.kind, L.CREDIT, amount))
  {
    hide LedgerKey, L.HasKey, L.Moved;
    var x, y := L.Entry(debit, L.DEBIT, amount), L.Entry(credit, L.CREDIT, amount);
    forall a ensures L.Moved([x, y], a) == if a == debit then L.BalanceChange(a.kind, L.DEBIT, amount)
                                           else if a == credit then L.BalanceChange(a.kind, L.CREDIT, amount) else 0 {
      TwoMoved(x, y, a);
    }
  }

  lemma CreditedIsGrant(p: C.Purse, c: CreditCall, throws: set<Pc>)
    requires c.grant
    ensures GrantEntered(p, Credited(p, c, throws), KeyCheck !in throws, c.user, c.amount, c.kind, CreditKey(c.source), c.source)
  {
    hide CreditKey, C.HasKey;
  }

  lemma CreditedIsDeduction(p: C.Purse, c: CreditCall, throws: set<Pc>)
    requires !c.grant && c.kind == C.USAGE
    ensures DeductionEntered(p, Credited(p, c, throws), KeyCheck !in throws, c.user, c.amount, CreditKey(c.source), c.source)
  {
    hide CreditKey, C.HasKey;
  }

  // ----- processRefund -----

  ghost predicate CreditRefundDone(db: Db, db': Db, id: string)
    requires id in db.refunds
  {
    var r := db.refunds[id];
    && db' == db.(refunds := db.refunds[id := r.(status := PROCESSED)], purse := db'.purse)
    && GrantEntered(db.purse, db'.purse, true, r.user, r.amount, C.REFUND, "refund_" + id, RefundGrant(id))
  }

  /** The gateway the request names has refunded the charge it names, once, for its amount; the other is untouched. */
  ghost predicate RefundedAtGateway(gate: Gate, gate': Gate, g: G.Gateway, charge: string, amount: int, key: string, gid: string) {
    && (g == G.AUTHORIZE_NET ==> gate'.sol == gate.sol) && (g == G.SOLANA ==> gate'.an == gate.an)
    && var st, st' := if g == G.AUTHORIZE_NET then gate.an else gate.sol, if g == G.AUTHORIZE_NET then gate'.an else gate'.sol;
       && key in st'.refundLog && st'.refundLog[key] == G.Refunded(gid, amount)
       && (key in st.refundLog ==> st' == st)
       && (key !in st.refundLog ==>
             && st'.refundLog == st.refundLog[key := G.Refunded(gid, amount)]
             && st'.charges == if charge in st.charges then st.charges[charge := G.Charge(st.charges[charge].amount, G.REFUNDED)] else st.charges)
  }

  /** Gateway, posting, id and deduction of one refund; the row's status is `status` after it. */
  ghost predicate PaymentRefundDone(db: Db, gate: Gate, db': Db, gate': Gate, id: string, txn: string, throws: set<Pc>, status: RefundStatus)
    requires id in db.refunds
  {
    var r := db.refunds[id];
    && r.gateway.Some? && r.charge.Some? && r.charge.value != ""
    && id in db'.refunds && db'.refunds[id].paymentRefundId.Some?
    && var gid := db'.refunds[id].paymentRefundId.value;
       && db' == db.(refunds := db.refunds[id := r.(status := status, paymentRefundId := Some(gid))], books := db'.books, purse := db'.purse)
       && RefundedAtGateway(gate, gate', r.gateway.value, r.charge.value, r.amount, "refund_" + id, gid)
       && PostingEntered(db.books, db'.books, txn, "refund_" + id + "_ledger", RefundOf(id),
                 L.Account("test-admin-1", L.REVENUE), L.Account(r.user, L.ASSET), r.amount, -r.amount, -r.amount)
       && DeductionEntered(db.purse, db'.purse, KeyCheck !in throws, r.user, r.amount, "refund_" + id, RefundDeduct(id))
  }

  ghost predicate RefundDone(db: Db, gate: Gate, db': Db, gate': Gate, id: string, txn: string, throws: set<Pc>) {
    && id in db.refunds && db.refunds[id].status == APPROVED
    && var r := db.refunds[id];
       if r.kind == CREDITS then gate' == gate && CreditRefundDone(db, db', id)
       else if r.paymentRefundId.Some? then gate' == gate && db' == db.(refunds := db.refunds[id := r.(status := PROCESSED)])
       else PaymentRefundDone(db, gate, db', gate', id, txn, throws, PROCESSED)
  }

  lemma CreditRefundReceipt(db: Db, gate: Gate, id: string, m: Mints, throws: set<Pc>)
    requires R.ProcessRefund(db, gate, id, m, throws).ok && db.refunds[id].kind == CREDITS
    ensures var end := R.ProcessRefund(db, gate, id, m, throws); RefundDone(db, gate, end.db, end.gate, id, m.txn, throws)
  {
    hide Credited, C.HasKey, GrantEntered;
    CreditedIsGrant(db.purse, R.GrantOf(id, db.refunds[id]), throws);
  }

  lemma GatewayReceipt(db: Db, gate: Gate, id: string, m: Mints, opening: map<string, int>)
    requires RowsOk(db, gate, opening) && id in db.refunds && db.refunds[id].gateway.Some? && db.refunds[id].charge.Some?
    ensures var r := db.refunds[id];
            var g := r.gateway.value;
            var key := CreditKey(RefundDeduct(id));
            var answer := G.Answer(g, gate.At(g), r.charge.value, r.amount, key, m.refund);
            && answer.refundedAmount == r.amount
            && RefundedAtGateway(gate, gate.With(g, G.AfterRefund(g, gate.At(g), r.charge.value, r.amount, key, m.refund)), g,
                                 r.charge.value, r.amount, key, answer.gatewayRefundId)
  {
    hide RowsOk, CreditKey;
    R.AnswerIsFull(db, gate, id, m, opening);
  }

  /** processPaymentRefund on a request that was not booked before. */
  lemma PaymentRefundReceipt(db: Db, gate: Gate, id: string, m: Mints, throws: set<Pc>, opening: map<string, int>)
    requires RowsOk(db, gate, opening) && id in db.refunds && db.refunds[id].paymentRefundId.None?
    requires R.PaymentRefund(db, gate, id, m, throws).ok
    ensures var end := R.PaymentRefund(db, gate, id, m, throws);
            PaymentRefundDone(db, gate, end.db, end.gate, id, m.txn, throws, db.refunds[id].status)
  {
    hide RowsOk, Credited, Recorded, C.HasKey, L.HasKey, DeductionEntered, PostingEntered, G.Answer, G.AfterRefund, RefundedAtGateway, LedgerKey,
         CreditKey;
    var r := db.refunds[id];
    R.AmountIsPositive(db, gate, id, opening);
    R.Unbooked(db, gate, id, opening);
    GatewayReceipt(db, gate, id, m, opening);
    RecordedIsBooked(db.books, m.txn, RefundOf(id), L.Account("test-admin-1", L.REVENUE), L.Account(r.user, L.ASSET), r.amount);
    CreditedIsDeduction(db.purse, R.DeductionOf(id, r), throws);
    KeyStrings(id);
  }

  lemma BookedThenFinished(db: Db, gate: Gate, id: string, m: Mints, throws: set<Pc>, opening: map<string, int>)
    requires RowsOk(db, gate, opening) && R.ProcessRefund(db, gate, id, m, throws).ok && db.refunds[id].kind == PAYMENT
    ensures var end := R.ProcessRefund(db, gate, id, m, throws); RefundDone(db, gate, end.db, end.gate, id, m.txn, throws)
  {
    hide RowsOk, R.PaymentRefund, PostingEntered, DeductionEntered, RefundedAtGateway;
    if db.refunds[id].paymentRefundId.None? {
      PaymentRefundReceipt(db, gate, id, m, throws, opening);
    } else {
      assert R.PaymentRefund(db, gate, id, m, throws) == R.Left(db, gate, true) by { BookedBefore(db, gate, id, m, throws); }
    }
  }

  lemma BookedBefore(db: Db, gate: Gate, id: string, m: Mints, throws: set<Pc>)
    requires id in db.refunds && db.refunds[id].paymentRefundId.Some?
    ensures R.PaymentRefund(db, gate, id, m, throws) == R.Left(db, gate, true)
  {
  }

  lemma KeyStrings(id: string)
    ensures LedgerKey(RefundOf(id)) == "refund_" + id + "_ledger" && CreditKey(RefundDeduct(id)) == "refund_" + id
  {
  }

  /**
   * A processRefund call that reports success: a CREDITS request is granted its amount; a
   * PAYMENT request already booked is only finished; any other is refunded at its gateway, and
   * has its one posting, its id, and its deduction if the balance covers it.
   */
  lemma RefundReceipt(db: Db, gate: Gate, id: string, m: Mints, throws: set<Pc>, opening: map<string, int>)
    requires RowsOk(db, gate, opening) && R.ProcessRefund(db, gate, id, m, throws).ok
    ensures var end := R.ProcessRefund(db, gate, id, m, throws); RefundDone(db, gate, end.db, end.gate, id, m.txn, throws)
  {
    hide RowsOk, RefundDone;
    if db.refunds[id].kind == CREDITS {
      CreditRefundReceipt(db, gate, id, m, throws);
    } else {
      BookedThenFinished(db, gate, id, m, throws, opening);
    }
  }

  /**
   * One that fails before its final status update changes one attempt count at most, and
   * leaves no posting: of all its other writes only the one credit row stays.
   */
  lemma FailedRefundReceipt(db: Db, gate: Gate, id: string, m: Mints, throws: set<Pc>, opening: map<string, int>)
    requires RowsOk(db, gate, opening) && !R.ProcessRefund(db, gate, id, m, throws).ok && Final !in throws
    ensures var end := R.ProcessRefund(db, gate, id, m, throws);
            && end.db == db.(refunds := end.db.refunds, purse := end.db.purse)
            && (end.db.refunds == db.refunds
                || (id in db.refunds && end.db.refunds == db.refunds[id := db.refunds[id].(attempts := db.refunds[id].attempts + 1)]))
            && (end.db.purse != db.purse ==>
                  && id in db.refunds && db.refunds[id].kind == PAYMENT && db.refunds[id].status == APPROVED
                  && RowEntered(db.purse, end.db.purse, db.refunds[id].user, -db.refunds[id].amount, C.USAGE, "refund_" + id, RefundDeduct(id)))
  {
    hide RowsOk, C.HasKey, L.HasKey, G.Answer, G.AfterRefund, LedgerKey, CreditKey, Recorded, LedgerSucceeds, RowEntered, Credited, CreditSucceeds;
    if Start !in throws && id in db.refunds && db.refunds[id].status == APPROVED {
      var r := db.refunds[id];
      KeyStrings(id);
      if r.kind == CREDITS {
        RefusedChangesNothing(db.purse, R.GrantOf(id, r), throws);
      } else {
        CreditedIsDeduction(db.purse, R.DeductionOf(id, r), throws);
      }
    }
  }

  lemma RefusedChangesNothing(p: C.Purse, c: CreditCall, throws: set<Pc>)
    requires !CreditSucceeds(p, c, throws)
    ensures Credited(p, c, throws) == p
  {
  }

  // ----- setOutcome -----

  ghost predicate WonDone(db: Db, db': Db, d: string, txn: string, throws: set<Pc>)
    requires d in db.disputes
  {
    var x := db.disputes[d];
    && db' == db.(disputes := db.disputes[d := x.(status := WON)], books := db'.books, purse := db'.purse)
    && (if HasSource(db.books.txns, WonOf(d)) then db'.books.txns == db.books.txns && forall a :: HeldBy(db'.books, a) == HeldBy(db.books, a)
        else PostingEntered(db.books, db'.books, txn, "dispute_won_" + d + "_ledger", WonOf(d),
               L.Account(x.user, L.ASSET), L.Account("test-admin-1", L.REVENUE), x.amount, x.amount, x.amount))
    && GrantEntered(db.purse, db'.purse, KeyCheck !in throws, x.user, x.amount, C.REFUND, "dispute_won_" + d, WonGrant(d))
  }

  ghost predicate LostDone(db: Db, db': Db, d: string, fee: int, txn: string)
    requires d in db.disputes
  {
    var x := db.disputes[d];
    && db' == db.(disputes := db.disputes[d := x.(status := LOST)], books := db'.books)
    && (if HasSource(db.books.txns, LostOf(d)) then db'.books.txns == db.books.txns && forall a :: HeldBy(db'.books, a) == HeldBy(db.books, a)
        else PostingEntered(db.books, db'.books, txn, "dispute_lost_" + d + "_fee_ledger", LostOf(d),
               L.Account("test-admin-1", L.EXPENSE), L.Account(x.user, L.ASSET), fee, fee, -fee))
  }

  ghost predicate OutcomeDone(db: Db, db': Db, d: string, won: bool, fee: int, txn: string, throws: set<Pc>) {
    && d in db.disputes && (db.disputes[d].status == OPEN || db.disputes[d].status == EVIDENCE_SUBMITTED)
    && if won then WonDone(db, db', d, txn, throws) else LostDone(db, db', d, fee, txn)
  }

  lemma KnownKeyIsHeld(b: L.Books, id: string, source: LedgerSource, lines: seq<L.Entry>)
    requires L.HasKey(b.txns, LedgerKey(source)) && |lines| == 2
    ensures Recorded(b, source, lines, id).txns == b.txns && forall a :: HeldBy(Recorded(b, source, lines, id), a) == HeldBy(b, a)
  {
    hide LedgerKey, L.HasKey;
  }

  lemma OutcomeKeyStrings(d: string)
    ensures LedgerKey(WonOf(d)) == "dispute_won_" + d + "_ledger" && LedgerKey(LostOf(d)) == "dispute_lost_" + d + "_fee_ledger"
    ensures CreditKey(WonGrant(d)) == "dispute_won_" + d
  {
  }

  /**
   * A setOutcome call that succeeds: the status, and one posting unless an earlier call made
   * it. WON puts revenue and the user's asset back up and restores the credits once; LOST
   * moves exactly the fee passed.
   */
  lemma OutcomeReceipt(db: Db, gate: Gate, d: string, won: bool, fee: int, m: Mints, throws: set<Pc>, opening: map<string, int>)
    requires RowsOk(db, gate, opening) && O.OutcomeSucceeds(db, d, won, fee, throws)
    ensures OutcomeDone(db, O.SetOutcome(db, d, won, fee, m, throws), d, won, fee, m.txn, throws)
  {
    hide RowsOk, Credited, Recorded, C.HasKey, L.HasKey, HasSource, GrantEntered, PostingEntered, LedgerKey, CreditKey;
    var x := db.disputes[d];
    var source := if won then WonOf(d) else LostOf(d);
    KeyMeansSource(db, gate, opening, source);
    OutcomeKeyStrings(d);
    CreditedIsGrant(db.purse, O.RestoreOf(d, x), throws);
    if HasSource(db.books.txns, source) {
      KnownKeyIsHeld(db.books, m.txn, source, O.OutcomeLines(x, won, fee));
    } else if won {
      RecordedIsBooked(db.books, m.txn, WonOf(d), L.Account(x.user, L.ASSET), L.Account("test-admin-1", L.REVENUE), x.amount);
    } else {
      RecordedIsBooked(db.books, m.txn, LostOf(d), L.Account("test-admin-1", L.EXPENSE), L.Account(x.user, L.ASSET), fee);
    }
  }

  /** One that fails leaves nothing but, for WON, the restored credits. */
  lemma FailedOutcomeReceipt(db: Db, d: string, won: bool, fee: int, m: Mints, throws: set<Pc>)
    requires !O.OutcomeSucceeds(db, d, won, fee, throws)
    ensures var db' := O.SetOutcome(db, d, won, fee, m, throws);
            && db' == db.(purse := db'.purse)
            && (db'.purse != db.purse ==>
                  won && d in db.disputes
                  && RowEntered(db.purse, db'.purse, db.disputes[d].user, db.disputes[d].amount, C.REFUND, "dispute_won_" + d, WonGrant(d)))
  {
    hide Credited, Recorded, C.HasKey, L.HasKey, LedgerKey, CreditKey, LedgerSucceeds, RowEntered;
    OutcomeKeyStrings(d);
    if d in db.disputes {
      CreditedIsGrant(db.purse, O.RestoreOf(d, db.disputes[d]), throws);
    }
  }

  // ----- Deliveries -----

  /** The charge is on record, once. */
  ghost predicate OnRecord(charges: seq<ChargeRecord>, charges': seq<ChargeRecord>, g: G.Gateway, txn: string, user: string, amount: int) {
    charges' == if exists k :: 0 <= k < |charges| && charges[k].gateway == g && charges[k].txn == txn then charges
                else charges + [ChargeRecord(g, txn, user, amount)]
  }

  /** charge.approved */
  ghost predicate ApprovedDone(db: Db, db': Db, charge: string, user: string, credits: Option<int>, cents: int) {
    && db' == db.(purse := db'.purse, charges := db'.charges)
    && (if credits.Some?
        then credits.value > 0
             && GrantEntered(db.purse, db'.purse, true, user, credits.value, C.PURCHASE, "authorize_net_charge_" + charge, ChargeGrant(charge))
        else db'.purse == db.purse)
    && (if charge != "" && user != "" then OnRecord(db.charges, db'.charges, G.AUTHORIZE_NET, charge, user, cents) else db'.charges == db.charges)
  }

  /** A confirmation */
  ghost predicate ConfirmDone(db: Db, db': Db, hash: string, user: string, amount: int) {
    && db' == db.(purse := db'.purse, charges := db'.charges)
    && amount > 0 && GrantEntered(db.purse, db'.purse, true, user, amount, C.PURCHASE, "solana_charge_" + hash, SolanaGrant(hash))
    && OnRecord(db.charges, db'.charges, G.SOLANA, hash, user, amount)
  }

  /** charge.refunded */
  ghost predicate RefundedDone(db: Db, db': Db, charge: string, user: string, taken: int, throws: set<Pc>) {
    && db' == db.(purse := db'.purse)
    && DeductionEntered(db.purse, db'.purse, KeyCheck !in throws, user, taken, "authorize_net_refund_" + charge, ChargeReversal(charge))
  }

  /** chargeback.received */
  ghost predicate ChargebackDone(db: Db, db': Db, charge: string, user: string, amount: int, m: Mints, throws: set<Pc>) {
    if exists d :: d in db.disputes && db.disputes[d].gatewayDisputeId == "an_dispute_" + charge then db' == db
    else
      && db' == db.(books := db'.books, purse := db'.purse,
                    disputes := db.disputes[m.dispute := Dispute(user, "an_dispute_" + charge, charge, amount, OPEN, Some(m.txn))])
      && amount > 0
      && PostingEntered(db.books, db'.books, m.txn, "chargeback_" + charge + "_reversal_ledger", ReversalOf(charge),
                        L.Account("test-admin-1", L.REVENUE), L.Account(user, L.ASSET), amount, -amount, -amount)
      && DeductionEntered(db.purse, db'.purse, KeyCheck !in throws, user, amount, "chargeback_" + charge, ChargebackDeduct(charge))
  }

  ghost predicate EventDone(db: Db, db': Db, job: Job, m: Mints, throws: set<Pc>) {
    match job
    case Approved(_, charge, user, credits, cents) => ApprovedDone(db, db', charge, user, credits, cents)
    case Confirm(hash, user, amount, _) => ConfirmDone(db, db', hash, user, amount)
    case Refunded(_, charge, user, taken) => RefundedDone(db, db', charge, user, taken, throws)
    case Chargeback(_, charge, user, amount) => ChargebackDone(db, db', charge, user, amount, m, throws)
    case Other(_) => db' == db
    case _ => false
  }

  /** The id was new and is in the table, and the event is done. */
  ghost predicate DeliveryDone(db: Db, db': Db, job: Job, required: int, m: Mints, throws: set<Pc>) {
    match job
    case Approved(event, _, _, _, _) =>
      event != "" && event !in db.webhooks && EventDone(db.(webhooks := db.webhooks[event := G.AUTHORIZE_NET]), db', job, m, throws)
    case Refunded(event, _, _, _) =>
      event != "" && event !in db.webhooks && EventDone(db.(webhooks := db.webhooks[event := G.AUTHORIZE_NET]), db', job, m, throws)
    case Chargeback(event, _, _, _) =>
      event != "" && event !in db.webhooks && EventDone(db.(webhooks := db.webhooks[event := G.AUTHORIZE_NET]), db', job, m, throws)
    case Other(event) =>
      event != "" && event !in db.webhooks && EventDone(db.(webhooks := db.webhooks[event := G.AUTHORIZE_NET]), db', job, m, throws)
    case Confirm(hash, _, _, depth) =>
      hash != "" && hash !in db.webhooks && depth >= required
      && EventDone(db.(webhooks := db.webhooks[hash := G.SOLANA]), db', job, m, throws)
    case _ => false
  }

  lemma DeliveryKeyStrings(c: string)
    ensures CreditKey(ChargeGrant(c)) == "authorize_net_charge_" + c && CreditKey(ChargeReversal(c)) == "authorize_net_refund_" + c
    ensures CreditKey(ChargebackDeduct(c)) == "chargeback_" + c && CreditKey(SolanaGrant(c)) == "solana_charge_" + c
    ensures LedgerKey(ReversalOf(c)) == "chargeback_" + c + "_reversal_ledger" && DisputeKey(c) == "an_dispute_" + c
  {
  }

  lemma PurchaseReceipt(db: Db, job: Job, m: Mints, throws: set<Pc>)
    requires (job.Approved? || job.Confirm?) && D.Purchase(db, job, throws).1
    ensures EventDone(db, D.Purchase(db, job, throws).0, job, m, throws)
  {
    hide Credited, C.HasKey, CreditKey, GrantEntered;
    if job.Confirm? {
      DeliveryKeyStrings(job.hash);
    } else {
      DeliveryKeyStrings(job.charge);
    }
    CreditedIsGrant(db.purse, D.CallOf(job), throws);
  }

  lemma ReversalReceipt(db: Db, job: Job, m: Mints, throws: set<Pc>)
    requires job.Refunded?
    ensures EventDone(db, D.Reversal(db, job, throws).0, job, m, throws)
  {
    hide Credited, C.HasKey, CreditKey, DeductionEntered;
    DeliveryKeyStrings(job.charge);
    CreditedIsDeduction(db.purse, D.CallOf(job), throws);
  }

  lemma ChargebackReceipt(db: Db, job: Job, m: Mints, throws: set<Pc>)
    requires job.Chargeback? && D.Chargebacked(db, job, m, throws).1
    requires !HasDispute(db.disputes, DisputeKey(job.charge)) ==> !L.HasKey(db.books.txns, LedgerKey(ReversalOf(job.charge)))
    ensures EventDone(db, D.Chargebacked(db, job, m, throws).0, job, m, throws)
  {
    hide Credited, Recorded, C.HasKey, L.HasKey, CreditKey, LedgerKey, DisputeKey, DeductionEntered, PostingEntered;
    DeliveryKeyStrings(job.charge);
    if !HasDispute(db.disputes, DisputeKey(job.charge)) {
      RecordedIsBooked(db.books, m.txn, ReversalOf(job.charge), L.Account("test-admin-1", L.REVENUE), L.Account(job.user, L.ASSET), job.amount);
      CreditedIsDeduction(db.purse, D.CallOf(job), throws);
    }
  }

  lemma EventReceipt(db: Db, job: Job, m: Mints, throws: set<Pc>)
    requires WebhookOf(job).Some? && D.Applied(db, job, m, throws).1
    requires job.Chargeback? && !HasDispute(db.disputes, DisputeKey(job.charge)) ==> !L.HasKey(db.books.txns, LedgerKey(ReversalOf(job.charge)))
    ensures EventDone(db, D.Applied(db, job, m, throws).0, job, m, throws)
  {
    hide D.Purchase, D.Reversal, D.Chargebacked, DisputeKey, LedgerKey, L.HasKey, ApprovedDone, ConfirmDone, RefundedDone, ChargebackDone;
    match job
    case Approved(_, _, _, _, _) => PurchaseReceipt(db, job, m, throws);
    case Confirm(_, _, _, _) => PurchaseReceipt(db, job, m, throws);
    case Refunded(_, _, _, _) => ReversalReceipt(db, job, m, throws);
    case Chargeback(_, _, _, _) => ChargebackReceipt(db, job, m, throws);
    case _ =>
  }

  /**
   * A delivery that is applied: its id was new and is in the table; a purchase or a
   * confirmation is granted its credits and is on record; a refunded charge has its credits
   * taken back; a first chargeback has its dispute, its posting and its deduction; nothing
   * else changes.
   */
  lemma DeliveryReceipt(db: Db, gate: Gate, job: Job, required: int, m: Mints, throws: set<Pc>, opening: map<string, int>)
    requires RowsOk(db, gate, opening) && WebhookOf(job).Some? && D.Deliver(db, job, required, m, throws).1
    ensures DeliveryDone(db, D.Deliver(db, job, required, m, throws).0, job, required, m, throws)
  {
    hide RowsOk, EventDone, D.Applied, DisputeKey, LedgerKey, L.HasKey;
    if job.Chargeback? && !HasDispute(db.disputes, DisputeKey(job.charge)) {
      D.NoReversalYet(db, gate, opening, job.charge);
    }
    EventReceipt(D.Marked(db, job), job, m, throws);
  }

  /** The one credit row that a delivery which is not applied can leave. */
  ghost predicate OnlyItsCredits(p: C.Purse, p': C.Purse, job: Job) {
    match job
    case Approved(_, charge, user, credits, _) =>
      credits.Some? && RowEntered(p, p', user, credits.value, C.PURCHASE, "authorize_net_charge_" + charge, ChargeGrant(charge))
    case Confirm(hash, user, amount, _) => RowEntered(p, p', user, amount, C.PURCHASE, "solana_charge_" + hash, SolanaGrant(hash))
    case Refunded(_, charge, user, taken) =>
      RowEntered(p, p', user, -taken, C.USAGE, "authorize_net_refund_" + charge, ChargeReversal(charge))
    case Chargeback(_, charge, user, amount) => RowEntered(p, p', user, -amount, C.USAGE, "chargeback_" + charge, ChargebackDeduct(charge))
    case _ => false
  }

  /** One that is not applied leaves nothing but, at most, its one credit row. */
  lemma FailedDeliveryReceipt(db: Db, job: Job, required: int, m: Mints, throws: set<Pc>)
    requires WebhookOf(job).Some? && !D.Deliver(db, job, required, m, throws).1
    ensures var db' := D.Deliver(db, job, required, m, throws).0;
            db' == db.(purse := db'.purse) && (db'.purse != db.purse ==> OnlyItsCredits(db.purse, db'.purse, job))
  {
    hide Credited, C.HasKey, CreditKey, RowEntered, LedgerSucceeds, Recorded, HasDispute, DisputeKey, LedgerKey;
    match job
    case Approved(_, charge, _, credits, _) => DeliveryKeyStrings(charge); CreditedIsGrant(db.purse, D.CallOf(job), throws);
    case Confirm(hash, _, _, _) => DeliveryKeyStrings(hash); CreditedIsGrant(db.purse, D.CallOf(job), throws);
    case Refunded(_, charge, _, _) => DeliveryKeyStrings(charge); CreditedIsDeduction(db.purse, D.CallOf(job), throws);
    case Chargeback(_, charge, _, _) => DeliveryKeyStrings(charge); CreditedIsDeduction(db.purse, D.CallOf(job), throws);
    case _ =>
  }
}
