/**
 * refunds/refunds.service.ts: request, review, process.
 *
 * Each method is one call, executed on the tables in place, with any of its statements
 * allowed to throw. What it leaves is proved to be what the engine's steps leave for the
 * same job, so a sequence of such calls is a run of the engine and keeps its invariant.
 */
module RefundsService {
  import opened Prelude
  import opened Keys
  import opened Engine
  import opened Calls
  import opened RefundCalls
  import opened Tables
  import opened Receipts
  import G = Gateways
  import L = Ledger
  import C = Credits

  class RefundsService {
    const db: Database

    constructor (db: Database)
      ensures this.db == db
    {
      this.db := db;
    }

    /** The most recent settled charge of a user on a gateway: the last matching record, if any matches. */
    method FindLatestCharge(user: string, g: G.Gateway) returns (txn: Option<string>)
      ensures txn.None? ==> forall k :: 0 <= k < |db.charges| ==> !(db.charges[k].user == user && db.charges[k].gateway == g)
      ensures txn.Some? ==> exists k ::
                && 0 <= k < |db.charges| && db.charges[k].user == user && db.charges[k].gateway == g && db.charges[k].txn == txn.value
                && forall j :: k < j < |db.charges| ==> !(db.charges[j].user == user && db.charges[j].gateway == g)
      ensures txn == LatestCharge(db.charges, user, g)
    {
      var n := |db.charges|;
      assert db.charges[..n] == db.charges;
      while n > 0
        invariant n <= |db.charges|
        invariant LatestCharge(db.charges, user, g) == LatestCharge(db.charges[..n], user, g)
        invariant forall j :: n <= j < |db.charges| ==> !(db.charges[j].user == user && db.charges[j].gateway == g)
      {
        var c := db.charges[n - 1];
        if c.user == user && c.gateway == g {
          return Some(c.txn);
        }
        assert db.charges[..n][..n - 1] == db.charges[..n - 1];
        n := n - 1;
      }
      return None;
    }

    /** Stores a PENDING request, with the charge filled in from the latest one when it names none. */
    method CreateRefundRequest(id: string, user: string, kind: RefundKind, amount: int, gateway: Option<G.Gateway>, named: Option<string>)
      returns (created: Option<Refund>)
      requires db.Valid() && id !in db.refunds
      modifies db
      ensures var q := Request(user, kind, amount, gateway, named, user in old(db.subscriptions.subs));
              && created == Accepted(old(db.View()), q)
              && db.View() == Do(State(old(db.View()), old(db.Gates()), map[], map[], db.required), Create(id, q)).db
      ensures created.Some? ==>
                && db.View() == old(db.View()).(refunds := old(db.refunds)[id := created.value])
                && created.value == Refund(user, kind, amount, gateway, created.value.charge, PENDING, None, 0)
                && (kind == CREDITS || (named.Some? && named.value != "") ==> created.value.charge == named)
                && (kind == PAYMENT && (named.None? || named.value == "") ==>
                      || (&& created.value.charge == named
                          && forall k :: 0 <= k < |db.charges| ==> !(db.charges[k].user == user && Some(db.charges[k].gateway) == gateway))
                      || exists k ::
                           && 0 <= k < |db.charges| && db.charges[k].user == user && Some(db.charges[k].gateway) == gateway
                           && created.value.charge == Some(db.charges[k].txn)
                           && forall j :: k < j < |db.charges| ==> !(db.charges[j].user == user && Some(db.charges[j].gateway) == gateway))
      ensures created.None? ==> db.View() == old(db.View())
      ensures created.None? <==> amount <= 0 || (kind == PAYMENT && (gateway.None? || user !in old(db.subscriptions.subs)))
      ensures db.Valid()
    {
      ghost var q := Request(user, kind, amount, gateway, named, user in db.subscriptions.subs);
      DoneReached(db.View(), db.Gates(), db.required, Create(id, q), db.opening);
      hide Reached;
      if amount <= 0 {
        return None;
      }
      if kind == PAYMENT && gateway.None? {
        return None;
      }
      if kind == PAYMENT && user !in db.subscriptions.subs {
        return None;
      }
      var charge := named;
      if kind == PAYMENT && !Given(charge) {
        var latest := FindLatestCharge(user, gateway.value);
        if latest.Some? {
          charge := latest;
        }
      }
      var r := Refund(user, kind, amount, gateway, charge, PENDING, None, 0);
      db.refunds := db.refunds[id := r];
      return Some(r);
    }

    method ApproveRefund(id: string, throws: set<Pc>) returns (ok: bool)
      requires db.Valid()
      modifies db
      ensures var end := ReviewRefund(old(db.View()), old(db.Gates()), id, true, throws);
              db.View() == end.db && ok == end.ok
      ensures Completes(old(db.View()), db.Gates(), db.required, Review(id, true), Mints("", "", ""), throws, db.View(), db.Gates())
      ensures ok <==> old(id in db.refunds && db.refunds[id].status == PENDING) && Start !in throws && Write !in throws
      ensures ok ==> db.View() == old(db.View()).(refunds := old(db.refunds)[id := old(db.refunds)[id].(status := APPROVED)])
      ensures !ok ==> db.View() == old(db.View())
      ensures db.Valid()
    {
      hide Completes, Reached;
      ReviewCompletes(db.View(), db.Gates(), db.required, id, true, Mints("", "", ""), throws);
      CompletedReached(db.View(), db.Gates(), db.required, Review(id, true), Mints("", "", ""), throws,
                       ReviewRefund(db.View(), db.Gates(), id, true, throws).db, db.Gates(), db.opening);
      if Start in throws || id !in db.refunds || db.refunds[id].status != PENDING {
        return false;
      }
      if Write in throws {
        return false;
      }
      db.refunds := db.refunds[id := db.refunds[id].(status := APPROVED)];
      return true;
    }

    /** Denying takes notes that are not blank. */
    method DenyRefund(id: string, notes: Option<string>, throws: set<Pc>) returns (ok: bool)
      requires db.Valid()
      modifies db
      ensures Blank(notes) ==> !ok
      ensures !Blank(notes) ==>
                var end := ReviewRefund(old(db.View()), old(db.Gates()), id, false, throws);
                db.View() == end.db && ok == end.ok
      ensures !Blank(notes) ==>
                Completes(old(db.View()), db.Gates(), db.required, Review(id, false), Mints("", "", ""), throws, db.View(), db.Gates())
      ensures ok <==> !Blank(notes) && old(id in db.refunds && db.refunds[id].status == PENDING) && Start !in throws && Write !in throws
      ensures ok ==> db.View() == old(db.View()).(refunds := old(db.refunds)[id := old(db.refunds)[id].(status := DENIED)])
      ensures !ok ==> db.View() == old(db.View())
      ensures db.Valid()
    {
      hide Completes, Reached;
      ReviewCompletes(db.View(), db.Gates(), db.required, id, false, Mints("", "", ""), throws);
      CompletedReached(db.View(), db.Gates(), db.required, Review(id, false), Mints("", "", ""), throws,
                       ReviewRefund(db.View(), db.Gates(), id, false, throws).db, db.Gates(), db.opening);
      if Blank(notes) {
        return false;
      }
      if Start in throws || id !in db.refunds || db.refunds[id].status != PENDING {
        return false;
      }
      if Write in throws {
        return false;
      }
      db.refunds := db.refunds[id := db.refunds[id].(status := DENIED)];
      return true;
    }

    method ProcessCreditRefund(id: string, r: Refund, throws: set<Pc>) returns (ok: bool)
      requires id in db.refunds && db.refunds[id] == r && C.Sound(db.credits.View(), db.opening)
      modifies db.credits
      ensures var end := CreditRefund(old(db.View()), old(db.Gates()), id, throws);
              db.View() == end.db && ok == end.ok
      ensures id in db.refunds
      ensures ok ==> GrantEntered(old(db.credits.View()), db.credits.View(), true, r.user, r.amount, C.REFUND, "refund_" + id, RefundGrant(id))
    {
      if KeyCheck in throws {
        return false;
      }
      var a := db.credits.RefundCredits(r.user, r.amount, "refund_" + id, Some(RefundGrant(id)), db.opening);
      return !a.Refused?;
    }

    /** Gateway first, then one transaction: reversal, paymentRefundId, credits. */
    method ProcessPaymentRefund(id: string, r: Refund, m: Mints, throws: set<Pc>) returns (ok: bool)
      requires db.Valid() && id in db.refunds && db.refunds[id] == r
      modifies db, db.ledger, db.credits, db.authorizeNet, db.solana, db.subscriptions
      ensures db.subscriptions.View() == old(db.subscriptions.View())
      ensures var end := PaymentRefund(old(db.View()), old(db.Gates()), id, m, throws);
              db.View() == end.db && db.Gates() == end.gate && ok == end.ok
      ensures id in db.refunds
      ensures ok ==> if r.paymentRefundId.Some? then db.View() == old(db.View()) && db.Gates() == old(db.Gates())
                     else PaymentRefundDone(old(db.View()), old(db.Gates()), db.View(), db.Gates(), id, m.txn, throws, r.status)
    {
      hide Reached, PaymentRefundDone, C.Sound, G.Answer, G.AfterRefund, LedgerSucceeds, Recorded, LedgerKey, CreditKey;
      PaymentReceipt(db.View(), db.Gates(), db.required, id, m, throws, db.opening);
      PurseSound(db.View(), db.Gates(), db.required, db.opening);
      if r.paymentRefundId.Some? {
        return true;
      }
      if r.gateway.None? {
        return false;
      }
      if !Given(r.charge) {
        return false;
      }
      if CallGateway in throws {
        return false;
      }
      var answer := db.RefundAt(r.gateway.value, r.charge.value, r.amount, CreditKey(RefundDeduct(id)), m.refund);
      ok := BookRefund(id, r, answer, m.txn, throws);
    }

    /** The one transaction: reversal, paymentRefundId, and the credits deduction, which commits by itself. */
    method BookRefund(id: string, r: Refund, answer: G.Refunded, txn: string, throws: set<Pc>) returns (ok: bool)
      requires id in db.refunds && db.refunds[id] == r && C.Sound(db.credits.View(), db.opening)
      modifies db, db.ledger, db.credits, db.subscriptions
      ensures db.subscriptions.View() == old(db.subscriptions.View()) && id in db.refunds
      ensures var reached := LedgerSucceeds(old(db.ledger.View()), RefundOf(id), answer.refundedAmount, throws) && Link !in throws;
              && ok == (reached && Commit !in throws)
              && db.credits.View() == (if reached then Credited(old(db.credits.View()), DeductionOf(id, r), throws) else old(db.credits.View()))
      ensures !ok ==> db.View() == old(db.View()).(purse := db.credits.View())
      ensures ok ==> db.View() == old(db.View()).(
                books := Recorded(old(db.ledger.View()), RefundOf(id), ReversalLines(r.user, answer.refundedAmount), txn),
                refunds := old(db.refunds)[id := r.(paymentRefundId := Some(answer.gatewayRefundId))], purse := db.credits.View())
    {
      hide C.Sound, LedgerSucceeds, Recorded, LedgerKey, CreditKey;
      var saved := db.Save();
      var posted := db.Record(RefundOf(id), ReversalLines(r.user, answer.refundedAmount), Asset(r.user), Revenue(), txn, throws);
      if posted.None? || Link in throws {
        db.Rollback(saved);
        return false;
      }
      db.refunds := db.refunds[id := db.refunds[id].(paymentRefundId := Some(answer.gatewayRefundId))];
      if !(KeyCheck in throws) {
        var a := db.credits.DeductCredits(r.user, r.amount, Some(CreditKey(RefundDeduct(id))), Some(RefundDeduct(id)), db.opening);
      }
      if Commit in throws {
        db.Rollback(saved);
        return false;
      }
      return true;
    }

    /**
     * Processes an approved request, whatever an earlier attempt left behind. When it
     * reports success the request is PROCESSED; when it fails past the status check the
     * attempt is counted, unless recording the attempt fails too.
     */
    method ProcessRefund(id: string, m: Mints, throws: set<Pc>) returns (ok: bool)
      requires db.Valid() && !L.HasId(db.ledger.txns, m.txn)
      modifies db, db.ledger, db.credits, db.authorizeNet, db.solana, db.subscriptions
      ensures db.subscriptions.View() == old(db.subscriptions.View())
      ensures var end := RefundCalls.ProcessRefund(old(db.View()), old(db.Gates()), id, m, throws);
              db.View() == end.db && db.Gates() == end.gate && ok == end.ok
      ensures Completes(old(db.View()), old(db.Gates()), db.required, Process(id), m, throws, db.View(), db.Gates())
      ensures ok ==> RefundDone(old(db.View()), old(db.Gates()), db.View(), db.Gates(), id, m.txn, throws)
      ensures ok ==> id in db.refunds && db.refunds[id].status == PROCESSED
      ensures db.Valid()
    {
      hide Reached, RefundDone, PaymentRefundDone, CreditRefund, PaymentRefund, Completes, L.HasId, C.Sound;
      ghost var before, gates := db.View(), db.Gates();
      ProcessRefundCompletes(before, gates, db.required, id, m, throws);
      ProcessKeeps(before, gates, db.required, id, m, throws, db.opening);
      ProcessReceipt(before, gates, db.required, id, m, throws, db.opening);
      PurseSound(before, gates, db.required, db.opening);
      if Start in throws || id !in db.refunds || db.refunds[id].status != APPROVED {
        return false;
      }
      var r := db.refunds[id];
      var done: bool;
      if r.kind == CREDITS {
        done := ProcessCreditRefund(id, r, throws);
      } else {
        done := ProcessPaymentRefund(id, r, m, throws);
      }
      if !done {
        if !(Catch in throws) {
          db.refunds := db.refunds[id := db.refunds[id].(attempts := db.refunds[id].attempts + 1)];
        }
        return false;
      }
      if Final in throws {
        return false;
      }
      db.refunds := db.refunds[id := db.refunds[id].(status := PROCESSED)];
      return true;
    }
  }

  /** Notes that say nothing: absent, or only white space. */
  predicate Blank(notes: Option<string>) {
    notes.None? || forall k :: 0 <= k < |notes.value| ==> WhiteSpace(notes.value[k])
  }

  /** What trimming a string removes. */
  predicate WhiteSpace(c: char) {
    || '\t' <= c <= '\r' || c == ' ' || c == '\U{A0}' || c == '\U{1680}' || '\U{2000}' <= c <= '\U{200A}'
    || c == '\U{2028}' || c == '\U{2029}' || c == '\U{202F}' || c == '\U{205F}' || c == '\U{3000}' || c == '\U{FEFF}'
  }

  lemma BlankNotes(notes: string)
    ensures Blank(None) && Blank(Some("")) && Blank(Some(" \t\r\n"))
    ensures (exists k :: 0 <= k < |notes| && ('a' <= notes[k] <= 'z' || 'A' <= notes[k] <= 'Z' || '0' <= notes[k] <= '9')) ==> !Blank(Some(notes))
  {
  }

  lemma PaymentReceipt(db: Db, gate: Gate, required: int, id: string, m: Mints, throws: set<Pc>, opening: map<string, int>)
    requires Reached(db, gate, required, opening) && id in db.refunds
    ensures var end := PaymentRefund(db, gate, id, m, throws);
            end.ok && db.refunds[id].paymentRefundId.None? ==>
              PaymentRefundDone(db, gate, end.db, end.gate, id, m.txn, throws, db.refunds[id].status)
  {
    hide Reached, PaymentRefund, PaymentRefundDone;
    ReachedRowsOk(db, gate, required, opening);
    if PaymentRefund(db, gate, id, m, throws).ok && db.refunds[id].paymentRefundId.None? {
      PaymentRefundReceipt(db, gate, id, m, throws, opening);
    }
  }

  lemma ProcessReceipt(db: Db, gate: Gate, required: int, id: string, m: Mints, throws: set<Pc>, opening: map<string, int>)
    requires Reached(db, gate, required, opening)
    ensures var end := RefundCalls.ProcessRefund(db, gate, id, m, throws);
            end.ok ==> RefundDone(db, gate, end.db, end.gate, id, m.txn, throws)
  {
    hide Reached, RefundCalls.ProcessRefund, RefundDone;
    ReachedRowsOk(db, gate, required, opening);
    if RefundCalls.ProcessRefund(db, gate, id, m, throws).ok {
      RefundReceipt(db, gate, id, m, throws, opening);
    }
  }

  lemma ProcessKeeps(db: Db, gate: Gate, required: int, id: string, m: Mints, throws: set<Pc>, opening: map<string, int>)
    requires Reached(db, gate, required, opening) && !L.HasId(db.books.txns, m.txn)
    ensures var end := RefundCalls.ProcessRefund(db, gate, id, m, throws); Reached(end.db, end.gate, required, opening)
  {
    hide Reached, Completes, RefundCalls.ProcessRefund, L.HasId;
    ProcessRefundCompletes(db, gate, required, id, m, throws);
    var end := RefundCalls.ProcessRefund(db, gate, id, m, throws);
    CompletedReached(db, gate, required, Process(id), m, throws, end.db, end.gate, opening);
  }
}
