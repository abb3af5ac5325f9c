/** What one uninterrupted call of the refunds service leaves behind. */
module RefundCalls {
  import opened Prelude
  import opened Keys
  import opened Engine
  import opened Invariant
  import opened Steps
  import opened Theorems
  import opened Calls
  import R = Refinement
  import G = Gateways
  import L = Ledger
  import C = Credits

  /** The rows and gateways a call leaves, and whether it succeeded. */
  datatype Left = Left(db: Db, gate: Gate, ok: bool)

  function GrantOf(id: string, r: Refund): CreditCall {
    CreditCall(r.user, r.amount, true, C.REFUND, RefundGrant(id))
  }

  function DeductionOf(id: string, r: Refund): CreditCall {
    CreditCall(r.user, r.amount, false, C.USAGE, RefundDeduct(id))
  }

  /** processCreditRefund */
  ghost function CreditRefund(db: Db, gate: Gate, id: string, throws: set<Pc>): (l: Left)
    requires id in db.refunds
    ensures l.gate == gate && l.db == db.(purse := l.db.purse)
  {
    var c := GrantOf(id, db.refunds[id]);
    Left(db.(purse := Credited(db.purse, c, throws)), gate, CreditSucceeds(db.purse, c, throws))
  }

  /** processPaymentRefund */
  ghost function PaymentRefund(db: Db, gate: Gate, id: string, m: Mints, throws: set<Pc>): Left
    requires id in db.refunds
  {
    var r := db.refunds[id];
    if r.paymentRefundId.Some? then Left(db, gate, true)
    else if r.gateway.None? || !Given(r.charge) || CallGateway in throws then Left(db, gate, false)
    else
      var g := r.gateway.value;
      var answer := G.Answer(g, gate.At(g), r.charge.value, r.amount, CreditKey(RefundDeduct(id)), m.refund);
      var paid := gate.With(g, G.AfterRefund(g, gate.At(g), r.charge.value, r.amount, CreditKey(RefundDeduct(id)), m.refund));
      if !LedgerSucceeds(db.books, RefundOf(id), answer.refundedAmount, throws) || Link in throws then Left(db, paid, false)
      else
        var deducted := db.(purse := Credited(db.purse, DeductionOf(id, r), throws));
        if Commit in throws then Left(deducted, paid, false)
        else Left(deducted.(books := Recorded(db.books, RefundOf(id), ReversalLines(r.user, answer.refundedAmount), m.txn),
                            refunds := db.refunds[id := r.(paymentRefundId := Some(answer.gatewayRefundId))]), paid, true)
  }

  /** What an attempt does past its status check, before the row is updated for it. */
  ghost function Attempt(db: Db, gate: Gate, id: string, m: Mints, throws: set<Pc>): Left
    requires id in db.refunds
  {
    if db.refunds[id].kind == CREDITS then CreditRefund(db, gate, id, throws) else PaymentRefund(db, gate, id, m, throws)
  }

  /** The rows of one refund request after the final status update, or the error handler's. */
  ghost function Ended(inner: Left, id: string, throws: set<Pc>): Left
    requires id in inner.db.refunds
  {
    var r := inner.db.refunds[id];
    if inner.ok then
      if Final in throws then inner.(ok := false)
      else inner.(db := inner.db.(refunds := inner.db.refunds[id := r.(status := PROCESSED)]))
    else
      if Catch in throws then inner
      else inner.(db := inner.db.(refunds := inner.db.refunds[id := r.(attempts := r.attempts + 1)]))
  }

  /** processRefund */
  ghost function ProcessRefund(db: Db, gate: Gate, id: string, m: Mints, throws: set<Pc>): Left {
    if Start in throws || id !in db.refunds || db.refunds[id].status != APPROVED then Left(db, gate, false)
    else Ended(Attempt(db, gate, id, m, throws), id, throws)
  }

  // ----- Each of them is what the engine does -----

  function Began(id: string, r: Refund, pc: Pc): Worker {
    Begin(Process(id)).(snap := r, pc := pc)
  }

  lemma LoneStart(db: Db, gate: Gate, id: string, at: Place, m: Mints, throws: set<Pc>)
    ensures var s := Lone(db, gate, map[], Begin(Process(id)), at);
            Next(s, at, m, throws)
            == if Start in throws || id !in db.refunds || db.refunds[id].status != APPROVED
               then Lone(db, gate, map[], Begin(Process(id)).(pc := Done), at)
               else
                 var r := db.refunds[id];
                 Lone(db, gate, map[], Began(id, r,
                   if r.kind == CREDITS then KeyCheck
                   else if r.paymentRefundId.Some? then Final
                   else if r.gateway.None? || !Given(r.charge) then Catch
                   else CallGateway), at)
  {
    hide Finish;
    LoneMoves(db, gate, map[], Begin(Process(id)), Begin(Process(id)), at);
  }

  /** The last statement: the status update, or the error handler's update of the attempts. */
  lemma LoneEnd(inner: Left, id: string, w: Worker, at: Place, m: Mints, throws: set<Pc>)
    requires id in inner.db.refunds && w.job == Process(id) && w.pc == if inner.ok then Final else Catch
    ensures Next(Lone(inner.db, inner.gate, map[], w, at), at, m, throws)
         == Lone(Ended(inner, id, throws).db, inner.gate, map[], w.(pc := Done, post := None, record := None), at)
    ensures Ended(inner, id, throws).gate == inner.gate
  {
    hide Finish;
    LoneMoves(inner.db, inner.gate, map[], w, w, at);
    LoneMoves(Ended(inner, id, throws).db, inner.gate, map[], w, w, at);
    if inner.ok && !(Final in throws) {
      assert UpdateRefund(Lone(inner.db, inner.gate, map[], w, at), at.call, w, id, inner.db.refunds[id].(status := PROCESSED))
          == Finish(Lone(Ended(inner, id, throws).db, inner.gate, map[], w, at), at.call, w);
    }
    if !inner.ok && !(Catch in throws) {
      assert UpdateRefund(Lone(inner.db, inner.gate, map[], w, at), at.call, w, id,
                          inner.db.refunds[id].(attempts := inner.db.refunds[id].attempts + 1))
          == Finish(Lone(Ended(inner, id, throws).db, inner.gate, map[], w, at), at.call, w);
    }
  }

  lemma EndLeads(s: State, inner: Left, id: string, w: Worker, at: Place, m: Mints, throws: set<Pc>)
    requires id in inner.db.refunds && w.job == Process(id) && w.pc == if inner.ok then Final else Catch
    requires Leads(s, Lone(inner.db, inner.gate, map[], w, at), at, m, throws)
    ensures Leads(s, Lone(Ended(inner, id, throws).db, inner.gate, map[], w.(pc := Done, post := None, record := None), at), at, m, throws)
    ensures Ended(inner, id, throws).gate == inner.gate
  {
    hide Leads, Next, Ended;
    LeadsStep(s, Lone(inner.db, inner.gate, map[], w, at), at, m, throws);
    LoneEnd(inner, id, w, at, m, throws);
  }

  lemma CreditRefundLeads(s: State, db: Db, gate: Gate, id: string, at: Place, m: Mints, throws: set<Pc>)
    returns (w: Worker)
    requires id in db.refunds && db.refunds[id].kind == CREDITS
    requires Leads(s, Lone(db, gate, map[], Began(id, db.refunds[id], KeyCheck), at), at, m, throws)
    ensures var inner := CreditRefund(db, gate, id, throws);
            && w.job == Process(id) && w.pc == (if inner.ok then Final else Catch)
            && Leads(s, Lone(inner.db, inner.gate, map[], w, at), at, m, throws)
  {
    hide Leads, Credited, CreditSucceeds, CreditKey;
    var v := Began(id, db.refunds[id], KeyCheck);
    assert Credit(v) == GrantOf(id, db.refunds[id]);
    var bal := CreditLeads(s, db, gate, map[], v, at, m, throws);
    w := v.(bal := bal, pc := if CreditSucceeds(db.purse, Credit(v), throws) then Final else Catch, post := None, record := None);
  }

  lemma LoneGateway(db: Db, gate: Gate, id: string, at: Place, m: Mints, throws: set<Pc>)
    requires id in db.refunds && db.refunds[id].gateway.Some? && db.refunds[id].charge.Some? && !(CallGateway in throws)
    ensures var r := db.refunds[id];
            var g := r.gateway.value;
            Next(Lone(db, gate, map[], Began(id, r, CallGateway), at), at, m, throws)
            == Lone(db, gate.With(g, G.AfterRefund(g, gate.At(g), r.charge.value, r.amount, CreditKey(RefundDeduct(id)), m.refund)), map[],
                    Began(id, r, Check).(
                      answer := G.Answer(g, gate.At(g), r.charge.value, r.amount, CreditKey(RefundDeduct(id)), m.refund)), at)
  {
    hide CreditKey, G.AfterRefund, G.Answer;
  }

  /** From the gateway's answer on: ledger, row, credits, commit. */
  lemma BookingLeads(s: State, db: Db, paid: Gate, id: string, answer: G.Refunded, at: Place, m: Mints,
      throws: set<Pc>)
    returns (w: Worker)
    requires id in db.refunds && db.refunds[id].kind == PAYMENT && !L.HasId(db.books.txns, m.txn)
    requires Leads(s, Lone(db, paid, map[], Began(id, db.refunds[id], Check).(answer := answer), at), at, m, throws)
    ensures var r := db.refunds[id];
            var ok := LedgerSucceeds(db.books, RefundOf(id), answer.refundedAmount, throws) && !(Link in throws);
            var deducted := db.(purse := Credited(db.purse, DeductionOf(id, r), throws));
            var end := if !ok then db else if Commit in throws then deducted
                       else deducted.(books := Recorded(db.books, RefundOf(id), ReversalLines(r.user, answer.refundedAmount), m.txn),
                                      refunds := db.refunds[id := r.(paymentRefundId := Some(answer.gatewayRefundId))]);
            && w.job == Process(id) && w.pc == (if ok && !(Commit in throws) then Final else Catch)
            && Leads(s, Lone(end, paid, map[], w, at), at, m, throws)
  {
    hide Leads, Next, Credited, CreditSucceeds, LedgerKey, CreditKey, L.HasKey, L.HasId, Recorded, Booked, Answered;
    var r := db.refunds[id];
    var v := Began(id, r, Check).(answer := answer);
    LedgerLeads(s, db, paid, map[], v, at, m, throws);
    w := v.(pc := Catch);
    if LedgerSucceeds(db.books, RefundOf(id), answer.refundedAmount, throws) {
      var v1 := AfterLedger(db.books, v, m.txn);
      var locks1 := LedgerLocks(at, db.books, map[], v, m.txn);
      LeadsStep(s, Lone(db, paid, locks1, v1, at), at, m, throws);
      if Link in throws {
        LoneThrow(db, paid, locks1, v1, at, m, throws);
        w := v1.(pc := Catch, post := None, record := None);
      } else {
        LoneLink(db, paid, locks1, v1, at, m, throws);
        var v2 := v1.(linked := true, pc := KeyCheck);
        var locks2 := locks1[RefundRow(id) := at.call];
        w := CommitLeads(s, db, paid, locks2, id, answer, v2, at, m, throws);
      }
    }
  }

  lemma CommitLeads(s: State, db: Db, paid: Gate, locks: map<Resource, nat>, id: string, answer: G.Refunded, v: Worker,
                    at: Place, m: Mints, throws: set<Pc>)
    returns (w: Worker)
    requires id in db.refunds && Mine(at, locks) && CreditsRow(db.refunds[id].user) !in locks
    requires v.job == Process(id) && v.pc == KeyCheck && v.snap == db.refunds[id] && v.snap.kind == PAYMENT && v.answer == answer
    requires v.post == if L.HasKey(db.books.txns, LedgerKey(RefundOf(id))) then None
                       else Some(L.Txn(m.txn, Some(LedgerKey(RefundOf(id))), Some(RefundOf(id)), ReversalLines(v.snap.user, answer.refundedAmount)))
    requires Leads(s, Lone(db, paid, locks, v, at), at, m, throws)
    ensures var r := db.refunds[id];
            var deducted := db.(purse := Credited(db.purse, DeductionOf(id, r), throws));
            var end := if Commit in throws then deducted
                       else deducted.(books := Recorded(db.books, RefundOf(id), ReversalLines(r.user, answer.refundedAmount), m.txn),
                                      refunds := db.refunds[id := r.(paymentRefundId := Some(answer.gatewayRefundId))]);
            && w.job == Process(id) && w.pc == (if Commit in throws then Catch else Final)
            && Leads(s, Lone(end, paid, map[], w, at), at, m, throws)
  {
    hide Leads, Next, Credited, CreditSucceeds, LedgerKey, CreditKey, L.HasKey, Recorded, Booked;
    assert Credit(v) == DeductionOf(id, db.refunds[id]);
    var bal := CreditLeads(s, db, paid, locks, v, at, m, throws);
    var deducted := db.(purse := Credited(db.purse, DeductionOf(id, db.refunds[id]), throws));
    var v3 := v.(bal := bal, pc := Commit);
    LeadsStep(s, Lone(deducted, paid, locks, v3, at), at, m, throws);
    if Commit in throws {
      LoneThrow(deducted, paid, locks, v3, at, m, throws);
      w := v3.(pc := Catch, post := None, record := None);
    } else {
      LoneCommit(deducted, paid, locks, v3, at, m, throws);
      BookedIsRecorded(db.books, v3, m.txn, RefundOf(id), ReversalLines(v.snap.user, answer.refundedAmount));
      w := v3.(pc := Final, post := None, record := None);
    }
  }

  lemma PaymentRefundLeads(s: State, db: Db, gate: Gate, id: string, at: Place, m: Mints, throws: set<Pc>)
    returns (w: Worker)
    requires id in db.refunds && db.refunds[id].kind == PAYMENT && !L.HasId(db.books.txns, m.txn)
    requires var r := db.refunds[id];
             r.paymentRefundId.None? && r.gateway.Some? && Given(r.charge)
             && Leads(s, Lone(db, gate, map[], Began(id, r, CallGateway), at), at, m, throws)
    ensures var inner := PaymentRefund(db, gate, id, m, throws);
            && id in inner.db.refunds && w.job == Process(id) && w.pc == (if inner.ok then Final else Catch)
            && Leads(s, Lone(inner.db, inner.gate, map[], w, at), at, m, throws)
  {
    hide Leads, Next, Credited, LedgerSucceeds, CreditKey, L.HasId, Recorded, G.AfterRefund, G.Answer;
    var r := db.refunds[id];
    var g := r.gateway.value;
    var v := Began(id, r, CallGateway);
    LeadsStep(s, Lone(db, gate, map[], v, at), at, m, throws);
    if CallGateway in throws {
      LoneThrow(db, gate, map[], v, at, m, throws);
      w := v.(pc := Catch);
    } else {
      LoneGateway(db, gate, id, at, m, throws);
      var answer := G.Answer(g, gate.At(g), r.charge.value, r.amount, CreditKey(RefundDeduct(id)), m.refund);
      var paid := gate.With(g, G.AfterRefund(g, gate.At(g), r.charge.value, r.amount, CreditKey(RefundDeduct(id)), m.refund));
      w := BookingLeads(s, db, paid, id, answer, at, m, throws);
    }
  }

  /** A whole processRefund call, with any of its statements throwing, is a run of the engine. */
  lemma ProcessRefundCompletes(db: Db, gate: Gate, required: int, id: string, m: Mints, throws: set<Pc>)
    requires !L.HasId(db.books.txns, m.txn)
    ensures var end := ProcessRefund(db, gate, id, m, throws);
            Completes(db, gate, required, Process(id), m, throws, end.db, end.gate)
  {
    hide CompletesAt, ProcessRefund, L.HasId;
    forall at: Place | New(at, required)
      ensures var end := ProcessRefund(db, gate, id, m, throws); CompletesAt(at, db, gate, Process(id), m, throws, end.db, end.gate)
    {
      ProcessRefundAt(at, db, gate, id, m, throws);
    }
  }

  lemma ProcessRefundAt(at: Place, db: Db, gate: Gate, id: string, m: Mints, throws: set<Pc>)
    requires !L.HasId(db.books.txns, m.txn)
    ensures var end := ProcessRefund(db, gate, id, m, throws);
            CompletesAt(at, db, gate, Process(id), m, throws, end.db, end.gate)
  {
    hide Leads, Next, CreditRefund, PaymentRefund, L.HasId, Ended;
    var s := Lone(db, gate, map[], Begin(Process(id)), at);
    LeadsNow(s, at, m, throws);
    LeadsStep(s, s, at, m, throws);
    LoneStart(db, gate, id, at, m, throws);
    if !(Start in throws || id !in db.refunds || db.refunds[id].status != APPROVED) {
      var r := db.refunds[id];
      if r.kind == CREDITS {
        var w := CreditRefundLeads(s, db, gate, id, at, m, throws);
        CreditRefundKeeps(db, gate, id, throws);
        EndLeads(s, CreditRefund(db, gate, id, throws), id, w, at, m, throws);
      } else {
        var inner := PaymentRefund(db, gate, id, m, throws);
        var w := Began(id, r, if r.paymentRefundId.Some? then Final else Catch);
        if r.paymentRefundId.None? && r.gateway.Some? && Given(r.charge) {
          w := PaymentRefundLeads(s, db, gate, id, at, m, throws);
        } else {
          PaymentRefundSkips(db, gate, id, m, throws);
        }
        EndLeads(s, inner, id, w, at, m, throws);
      }
    }
  }

  lemma CreditRefundKeeps(db: Db, gate: Gate, id: string, throws: set<Pc>)
    requires id in db.refunds
    ensures var inner := CreditRefund(db, gate, id, throws); id in inner.db.refunds
  {
    hide Credited, CreditSucceeds;
  }

  lemma PaymentRefundSkips(db: Db, gate: Gate, id: string, m: Mints, throws: set<Pc>)
    requires id in db.refunds
    requires var r := db.refunds[id]; r.paymentRefundId.Some? || r.gateway.None? || !Given(r.charge)
    ensures PaymentRefund(db, gate, id, m, throws) == Left(db, gate, db.refunds[id].paymentRefundId.Some?)
  {
  }

  lemma AnswerIsFull(db: Db, gate: Gate, id: string, m: Mints, opening: map<string, int>)
    requires RowsOk(db, gate, opening) && id in db.refunds && db.refunds[id].gateway.Some? && db.refunds[id].charge.Some?
    ensures var r := db.refunds[id];
            var g := r.gateway.value;
            G.Answer(g, gate.At(g), r.charge.value, r.amount, CreditKey(RefundDeduct(id)), m.refund).refundedAmount == r.amount
    ensures db.refunds[id].amount > 0
  {
    hide CreditKey, L.Sound, C.Sound, TxnOk, DisputeOk, CreditOk, SettledOk, DisputesUnique, ChargesUnique, EntryOk;
    assert RefundOk(db, gate, id);
    var g := db.refunds[id].gateway.value;
    if CreditKey(RefundDeduct(id)) in gate.At(g).refundLog {
      R.LoggedAmount(db, gate, g, id);
    }
  }

  lemma AmountIsPositive(db: Db, gate: Gate, id: string, opening: map<string, int>)
    requires RowsOk(db, gate, opening) && id in db.refunds
    ensures db.refunds[id].amount > 0 && (db.refunds[id].kind == PAYMENT ==> db.refunds[id].gateway.Some?)
  {
    hide CreditKey, L.Sound, C.Sound, TxnOk, DisputeOk, CreditOk, SettledOk, DisputesUnique, ChargesUnique, GateOk;
    assert RefundOk(db, gate, id);
  }

  /**
   * On sound rows, whatever earlier attempts left behind, a call in which nothing throws
   * succeeds exactly on an approved request that is for credits, was booked before, or names
   * a charge.
   */
  lemma UninterruptedRefundSucceeds(db: Db, gate: Gate, id: string, m: Mints, opening: map<string, int>)
    requires RowsOk(db, gate, opening)
    ensures ProcessRefund(db, gate, id, m, {}).ok
       <==> id in db.refunds && db.refunds[id].status == APPROVED
            && (db.refunds[id].kind == CREDITS || db.refunds[id].paymentRefundId.Some?
                || (db.refunds[id].charge.Some? && db.refunds[id].charge.value != ""))
  {
    hide RowsOk, CreditKey, LedgerKey, Credited, Recorded, G.Answer, G.AfterRefund, L.HasKey, C.HasKey, C.Balance;
    if id in db.refunds {
      AmountIsPositive(db, gate, id, opening);
      var r := db.refunds[id];
      if r.kind == PAYMENT && Given(r.charge) {
        AnswerIsFull(db, gate, id, m, opening);
      }
    }
  }

  /**
   * An attempt past its status check is counted if and only if it failed before the final
   * status update and recording the failure did not fail too.
   */
  lemma AttemptIsCounted(db: Db, gate: Gate, id: string, m: Mints, throws: set<Pc>)
    requires !(Start in throws) && id in db.refunds && db.refunds[id].status == APPROVED
    ensures var end := ProcessRefund(db, gate, id, m, throws);
            && id in end.db.refunds
            && (end.db.refunds[id].attempts == db.refunds[id].attempts + 1
                <==> !Attempt(db, gate, id, m, throws).ok && !(Catch in throws))
            && (end.db.refunds[id].attempts != db.refunds[id].attempts + 1 ==>
                  end.db.refunds[id].attempts == db.refunds[id].attempts)
  {
    hide Credited, CreditSucceeds, LedgerSucceeds, Recorded, CreditKey, G.Answer, G.AfterRefund;
  }

  /**
   * So a refund whose final status update fails, with everything before it done, is not
   * counted: it stays APPROVED with its money moved and its attempts as they were.
   */
  lemma FailedStatusUpdateIsNotCounted(db: Db, gate: Gate, id: string, m: Mints, opening: map<string, int>)
    requires RowsOk(db, gate, opening) && id in db.refunds && db.refunds[id].status == APPROVED
    requires db.refunds[id].kind == CREDITS || db.refunds[id].paymentRefundId.Some? || Given(db.refunds[id].charge)
    ensures var end := ProcessRefund(db, gate, id, m, {Final});
            && !end.ok && id in end.db.refunds && end.db.refunds[id].status == APPROVED
            && end.db.refunds[id].attempts == db.refunds[id].attempts
            && (db.refunds[id].kind == PAYMENT ==> end.db.refunds[id].paymentRefundId.Some?)
  {
    hide RowsOk, CreditKey, LedgerKey, Credited, Recorded, G.Answer, G.AfterRefund, L.HasKey, C.HasKey, C.Balance;
    AmountIsPositive(db, gate, id, opening);
    var r := db.refunds[id];
    if r.kind == PAYMENT && Given(r.charge) {
      AnswerIsFull(db, gate, id, m, opening);
    }
  }

  lemma Unbooked(db: Db, gate: Gate, id: string, opening: map<string, int>)
    requires RowsOk(db, gate, opening) && id in db.refunds && db.refunds[id].paymentRefundId.None?
    ensures !L.HasKey(db.books.txns, LedgerKey(RefundOf(id)))
  {
    hide RowsOk, LedgerKey, L.HasKey;
    SourceMeansBooked(db, gate, opening, id);
    KeyMeansSource(db, gate, opening, RefundOf(id));
  }

  lemma AppendedKey(log: seq<C.CreditTxn>, t: C.CreditTxn, key: string)
    requires t.key == Some(key)
    ensures C.HasKey(log + [t], key)
  {
    assert (log + [t])[|log|] == t;
  }

  /**
   * Credits are not atomic with the refund. On an approved request not booked and not yet
   * deducted, a call leaves the deduction without the booking if and only if everything up to
   * and including the credits call goes through, the balance covers it, and the commit
   * throws.
   */
  lemma DeductionWithoutBooking(db: Db, gate: Gate, id: string, m: Mints, throws: set<Pc>, opening: map<string, int>)
    requires RowsOk(db, gate, opening) && id in db.refunds && db.refunds[id].kind == PAYMENT
    requires db.refunds[id].status == APPROVED && db.refunds[id].paymentRefundId.None?
    requires !C.HasKey(db.purse.log, CreditKey(RefundDeduct(id)))
    ensures var end := ProcessRefund(db, gate, id, m, throws).db;
            && id in end.refunds
            && (C.HasKey(end.purse.log, CreditKey(RefundDeduct(id))) && end.refunds[id].paymentRefundId.None?
                <==> && db.refunds[id].charge.Some? && db.refunds[id].charge.value != ""
                     && C.Balance(db.purse.balances, db.refunds[id].user) >= db.refunds[id].amount
                     && throws !! {Start, CallGateway, Check, Post, Link, KeyCheck} && Commit in throws)
  {
    hide RowsOk, CreditKey, LedgerKey, Recorded, G.Answer, G.AfterRefund, L.HasKey, C.HasKey, C.Balance;
    AmountIsPositive(db, gate, id, opening);
    Unbooked(db, gate, id, opening);
    var r := db.refunds[id];
    var key := CreditKey(RefundDeduct(id));
    AppendedKey(db.purse.log, C.CreditTxn(r.user, -r.amount, C.USAGE, Some(key), Some(RefundDeduct(id))), key);
    if Given(r.charge) {
      AnswerIsFull(db, gate, id, m, opening);
    }
  }

  // ----- approveRefund and denyRefund -----

  ghost function ReviewRefund(db: Db, gate: Gate, id: string, approve: bool, throws: set<Pc>): Left {
    if Start in throws || Write in throws || id !in db.refunds || db.refunds[id].status != PENDING then Left(db, gate, false)
    else Left(db.(refunds := db.refunds[id := db.refunds[id].(status := if approve then APPROVED else DENIED)]), gate, true)
  }

  lemma ReviewCompletes(db: Db, gate: Gate, required: int, id: string, approve: bool, m: Mints, throws: set<Pc>)
    ensures var end := ReviewRefund(db, gate, id, approve, throws);
            Completes(db, gate, required, Review(id, approve), m, throws, end.db, end.gate)
  {
    hide CompletesAt, ReviewRefund;
    forall at: Place | New(at, required)
      ensures var end := ReviewRefund(db, gate, id, approve, throws);
              CompletesAt(at, db, gate, Review(id, approve), m, throws, end.db, end.gate)
    {
      ReviewAt(at, db, gate, id, approve, m, throws);
    }
  }

  lemma ReviewAt(at: Place, db: Db, gate: Gate, id: string, approve: bool, m: Mints, throws: set<Pc>)
    ensures var end := ReviewRefund(db, gate, id, approve, throws);
            CompletesAt(at, db, gate, Review(id, approve), m, throws, end.db, end.gate)
  {
    hide Leads, Finish;
    var job := Review(id, approve);
    var s := Lone(db, gate, map[], Begin(job), at);
    LeadsNow(s, at, m, throws);
    LeadsStep(s, s, at, m, throws);
    LoneMoves(db, gate, map[], Begin(job), Begin(job), at);
    if !(Start in throws || id !in db.refunds || db.refunds[id].status != PENDING) {
      var w := Begin(job).(pc := Write);
      LoneMoves(db, gate, map[], Begin(job), w, at);
      LeadsStep(s, Lone(db, gate, map[], w, at), at, m, throws);
      LoneMoves(db, gate, map[], w, w, at);
      var end := ReviewRefund(db, gate, id, approve, throws);
      LoneMoves(end.db, gate, map[], w, w, at);
    }
  }
}
