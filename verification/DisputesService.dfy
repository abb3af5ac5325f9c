/** disputes/disputes.service.ts: open, attach evidence, resolve. */
module DisputesService {
  import opened Prelude
  import opened Keys
  import opened Engine
  import opened Invariant
  import opened Calls
  import opened Serial
  import opened DisputeCalls
  import opened Tables
  import opened Receipts
  import L = Ledger
  import C = Credits

  /** The transition table. */
  predicate Allowed(current: DisputeStatus, target: DisputeStatus) {
    match current
    case OPEN => target == WON || target == LOST || target == EVIDENCE_SUBMITTED
    case EVIDENCE_SUBMITTED => target == WON || target == LOST
    case WON => false
    case LOST => false
  }

  class DisputesService {
    const db: Database

    constructor (db: Database)
      ensures this.db == db
    {
      this.db := db;
    }

    /** The dispute filed under a gateway id, if there is one. */
    method FindDispute(gid: string) returns (found: Option<string>)
      ensures found.Some? <==> HasDispute(db.disputes, gid)
      ensures found.Some? ==> found.value in db.disputes && db.disputes[found.value].gatewayDisputeId == gid
    {
      if d :| d in db.disputes && db.disputes[d].gatewayDisputeId == gid {
        return Some(d);
      }
      return None;
    }

    /** Idempotent by the gateway's dispute id: an existing dispute is returned as it is. */
    method CreateDispute(id: string, user: string, gid: string, charge: string, amount: int) returns (d: string)
      requires id !in db.disputes
      modifies db
      ensures d in db.disputes && db.disputes[d].gatewayDisputeId == gid
      ensures old(HasDispute(db.disputes, gid)) ==> d in old(db.disputes) && db.View() == old(db.View())
      ensures !old(HasDispute(db.disputes, gid)) ==>
                d == id && db.View() == old(db.View()).(disputes := old(db.disputes)[id := Dispute(user, gid, charge, amount, OPEN, None)])
      ensures old(DisputesUnique(db.disputes)) ==> DisputesUnique(db.disputes)
    {
      var existing := FindDispute(gid);
      if existing.Some? {
        return existing.value;
      }
      db.disputes := db.disputes[id := Dispute(user, gid, charge, amount, OPEN, None)];
      return id;
    }

    /** Evidence on an OPEN dispute moves it on; on any other it changes no status. */
    method AttachEvidence(d: string, throws: set<Pc>) returns (ok: bool)
      requires db.Valid()
      modifies db
      ensures db.View() == DisputeCalls.AttachEvidence(old(db.View()), d, throws)
      ensures Completes(old(db.View()), db.Gates(), db.required, Evidence(d), Mints("", "", ""), throws, db.View(), db.Gates())
      ensures ok ==> d in old(db.disputes)
      ensures db.View() == if ok && old(d in db.disputes && db.disputes[d].status == OPEN)
                           then old(db.View()).(disputes := old(db.disputes)[d := old(db.disputes[d]).(status := EVIDENCE_SUBMITTED)])
                           else old(db.View())
      ensures throws == {} && d in old(db.disputes) ==> ok
      ensures db.Valid()
    {
      hide Reached, Completes;
      AttachEvidenceCompletes(db.View(), db.Gates(), db.required, d, Mints("", "", ""), throws);
      CompletedReached(db.View(), db.Gates(), db.required, Evidence(d), Mints("", "", ""), throws,
                      DisputeCalls.AttachEvidence(db.View(), d, throws), db.Gates(), db.opening);
      if Start in throws || d !in db.disputes {
        return false;
      }
      if db.disputes[d].status == OPEN {
        if Write in throws {
          return false;
        }
        db.disputes := db.disputes[d := db.disputes[d].(status := EVIDENCE_SUBMITTED)];
      }
      return true;
    }

    /** One transaction: undo the reversal, restore credits, mark WON. */
    method HandleWon(d: string, x: Dispute, m: Mints, throws: set<Pc>) returns (ok: bool)
      requires db.Valid() && d in db.disputes && db.disputes[d] == x && !Resolved(x.status) && !(Start in throws)
      modifies db, db.ledger, db.credits, db.subscriptions
      ensures db.subscriptions.View() == old(db.subscriptions.View())
      ensures db.View() == SetOutcomeOf(old(db.View()), d, true, 0, m, throws)
      ensures ok == OutcomeSucceeds(old(db.View()), d, true, 0, throws)
      ensures ok ==> OutcomeDone(old(db.View()), db.View(), d, true, 0, m.txn, throws)
    {
      hide Reached, OutcomeDone, C.Sound, LedgerKey, CreditKey, Recorded, LedgerSucceeds, OutcomeSucceeds;
      PurseSound(db.View(), db.Gates(), db.required, db.opening);
      SetOutcomeReceipt(db.View(), db.Gates(), db.required, d, true, 0, m, throws, db.opening);
      SucceedsBySteps(db.View(), d, true, 0, throws);
      var saved := db.Save();
      var posted := db.Record(WonOf(d), WonLines(x.user, x.amount), Asset(x.user), Revenue(), m.txn, throws);
      if posted.None? {
        db.Rollback(saved);
        return false;
      }
      if !(KeyCheck in throws) {
        var a := db.credits.AddCredits(x.user, x.amount, C.REFUND, CreditKey(WonGrant(d)), Some(WonGrant(d)), db.opening);
      }
      if Resolve in throws || Commit in throws {
        db.Rollback(saved);
        return false;
      }
      db.disputes := db.disputes[d := db.disputes[d].(status := WON)];
      return true;
    }

    /** One transaction: the chargeback fee, mark LOST. */
    method HandleLost(d: string, x: Dispute, fee: int, m: Mints, throws: set<Pc>) returns (ok: bool)
      requires db.Valid() && d in db.disputes && db.disputes[d] == x && !Resolved(x.status) && !(Start in throws)
      modifies db, db.ledger, db.subscriptions
      ensures db.subscriptions.View() == old(db.subscriptions.View())
      ensures db.View() == SetOutcomeOf(old(db.View()), d, false, fee, m, throws)
      ensures ok == OutcomeSucceeds(old(db.View()), d, false, fee, throws)
      ensures ok ==> OutcomeDone(old(db.View()), db.View(), d, false, fee, m.txn, throws)
    {
      hide Reached, OutcomeDone, C.Sound, LedgerKey, CreditKey, Recorded, LedgerSucceeds, OutcomeSucceeds;
      SetOutcomeReceipt(db.View(), db.Gates(), db.required, d, false, fee, m, throws, db.opening);
      SucceedsBySteps(db.View(), d, false, fee, throws);
      var saved := db.Save();
      var posted := db.Record(LostOf(d), FeeLines(x.user, fee), Expense(), Asset(x.user), m.txn, throws);
      if posted.None? || Resolve in throws || Commit in throws {
        db.Rollback(saved);
        return false;
      }
      db.disputes := db.disputes[d := db.disputes[d].(status := LOST)];
      return true;
    }

    /** Resolves an unresolved dispute; success means its status is the outcome asked for, and a resolved one is refused. */
    method SetOutcome(d: string, won: bool, fee: int, m: Mints, throws: set<Pc>) returns (ok: bool)
      requires db.Valid() && !L.HasId(db.ledger.txns, m.txn)
      modifies db, db.ledger, db.credits, db.subscriptions
      ensures db.subscriptions.View() == old(db.subscriptions.View())
      ensures db.View() == DisputeCalls.SetOutcome(old(db.View()), d, won, fee, m, throws)
      ensures Completes(old(db.View()), db.Gates(), db.required, Outcome(d, won, fee), m, throws, db.View(), db.Gates())
      ensures ok == OutcomeSucceeds(old(db.View()), d, won, fee, throws)
      ensures ok ==> d in old(db.disputes) && Allowed(old(db.disputes)[d].status, if won then WON else LOST)
                     && d in db.disputes && db.disputes[d].status == if won then WON else LOST
      ensures ok ==> OutcomeDone(old(db.View()), db.View(), d, won, fee, m.txn, throws)
      ensures d in old(db.disputes) && !Allowed(old(db.disputes)[d].status, if won then WON else LOST) ==> db.View() == old(db.View())
      ensures db.Valid()
    {
      hide Reached, OutcomeDone, Completes, L.HasId, C.Sound, LedgerKey, CreditKey, Recorded, LedgerSucceeds, Credited;
      SetOutcomeCompletes(db.View(), db.Gates(), db.required, d, won, fee, m, throws);
      CompletedReached(db.View(), db.Gates(), db.required, Outcome(d, won, fee), m, throws,
                      DisputeCalls.SetOutcome(db.View(), d, won, fee, m, throws), db.Gates(), db.opening);
      SetOutcomeReceipt(db.View(), db.Gates(), db.required, d, won, fee, m, throws, db.opening);
      if Start in throws || d !in db.disputes {
        return false;
      }
      var x := db.disputes[d];
      if !Allowed(x.status, if won then WON else LOST) {
        return false;
      }
      if won {
        OutcomeFee(db.View(), d, fee, m, throws);
        ok := HandleWon(d, x, m, throws);
      } else {
        ok := HandleLost(d, x, fee, m, throws);
      }
    }
  }

  /** setOutcome under a name the class does not use. */
  ghost function SetOutcomeOf(db: Db, d: string, won: bool, fee: int, m: Mints, throws: set<Pc>): Db {
    DisputeCalls.SetOutcome(db, d, won, fee, m, throws)
  }

  lemma SetOutcomeReceipt(db: Db, gate: Gate, required: int, d: string, won: bool, fee: int, m: Mints, throws: set<Pc>, opening: map<string, int>)
    requires Reached(db, gate, required, opening)
    ensures OutcomeSucceeds(db, d, won, fee, throws) ==> OutcomeDone(db, SetOutcomeOf(db, d, won, fee, m, throws), d, won, fee, m.txn, throws)
  {
    hide Reached, OutcomeSucceeds, OutcomeDone;
    ReachedRowsOk(db, gate, required, opening);
    if OutcomeSucceeds(db, d, won, fee, throws) {
      OutcomeReceipt(db, gate, d, won, fee, m, throws, opening);
    }
  }

  lemma SucceedsBySteps(db: Db, d: string, won: bool, fee: int, throws: set<Pc>)
    requires d in db.disputes && !Resolved(db.disputes[d].status) && !(Start in throws)
    ensures OutcomeSucceeds(db, d, won, fee, throws)
       <==> OutcomePosted(db, d, won, fee, throws) && !(Resolve in throws) && !(Commit in throws)
  {
  }

  /** The fee plays no part in winning. */
  lemma OutcomeFee(db: Db, d: string, fee: int, m: Mints, throws: set<Pc>)
    ensures DisputeCalls.SetOutcome(db, d, true, fee, m, throws) == DisputeCalls.SetOutcome(db, d, true, 0, m, throws)
    ensures OutcomeSucceeds(db, d, true, fee, throws) == OutcomeSucceeds(db, d, true, 0, throws)
  {
  }
}
