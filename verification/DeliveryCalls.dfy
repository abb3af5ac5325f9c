/** What one uninterrupted delivery leaves behind, on the card path and on the Solana path. */
module DeliveryCalls {
  import opened Prelude
  import opened Keys
  import opened Engine
  import opened Invariant
  import opened Steps
  import opened Calls
  import opened RefundCalls
  import G = Gateways
  import L = Ledger
  import C = Credits

  /** The delivery is one to act on: it names an id that no committed delivery has used. */
  predicate Fresh(db: Db, job: Job, required: int) {
    WebhookOf(job).Some? && WebhookOf(job).value != "" && WebhookOf(job).value !in db.webhooks
    && (job.Confirm? ==> job.depth >= required)
  }

  /** The rows inside the delivery's transaction, its dedup row inserted. */
  function Marked(db: Db, job: Job): Db
    requires WebhookOf(job).Some?
  {
    db.(webhooks := db.webhooks[WebhookOf(job).value := if job.Confirm? then G.SOLANA else G.AUTHORIZE_NET])
  }

  ghost function ChargesWith(charges: seq<ChargeRecord>, job: Job): seq<ChargeRecord> {
    if RecordsCharge(job) && !HasCharge(charges, RecordOf(job).gateway, RecordOf(job).txn) then charges + [RecordOf(job)] else charges
  }

  predicate Grants(job: Job) {
    job.Confirm? || (job.Approved? && job.credits.Some?)
  }

  /** The credits call of a delivery. */
  function CallOf(job: Job): CreditCall {
    Credit(Begin(job))
  }

  /** charge.approved, and a Solana confirmation deep enough: credits, then the charge record. */
  ghost function Purchase(db: Db, job: Job, throws: set<Pc>): (Db, bool)
    requires WebhookOf(job).Some?
  {
    if Grants(job) && !CreditSucceeds(db.purse, CallOf(job), throws) then (db, false)
    else
      var granted := if Grants(job) then db.(purse := Credited(db.purse, CallOf(job), throws)) else db;
      if Record in throws then (granted, false) else (granted.(charges := ChargesWith(db.charges, job)), true)
  }

  /** charge.refunded: the deduction is allowed to fail. */
  ghost function Reversal(db: Db, job: Job, throws: set<Pc>): (Db, bool)
    requires WebhookOf(job).Some?
  {
    (db.(purse := Credited(db.purse, CallOf(job), throws)), true)
  }

  /** A new dispute with its reversal posted and linked, and the credits deducted if they can be. */
  ghost function Reversed(db: Db, job: Job, m: Mints, throws: set<Pc>): Db
    requires job.Chargeback?
  {
    db.(purse := Credited(db.purse, CallOf(job), throws),
        books := Recorded(db.books, ReversalOf(job.charge), ReversalLines(job.user, job.amount), m.txn),
        disputes := db.disputes[m.dispute := Dispute(job.user, DisputeKey(job.charge), job.charge, job.amount, OPEN, Some(m.txn))])
  }

  /** chargeback.received: dispute, reversal, link, credits; a known dispute is left as it is. */
  ghost function Chargebacked(db: Db, job: Job, m: Mints, throws: set<Pc>): (Db, bool)
    requires job.Chargeback?
  {
    if Find in throws then (db, false)
    else if HasDispute(db.disputes, DisputeKey(job.charge)) then (db, true)
    else if Insert in throws || !LedgerSucceeds(db.books, ReversalOf(job.charge), job.amount, throws) || Link in throws then (db, false)
    else (Reversed(db, job, m, throws), true)
  }

  /** What the event does inside the transaction, and whether it throws. */
  ghost function Applied(db: Db, job: Job, m: Mints, throws: set<Pc>): (Db, bool)
    requires WebhookOf(job).Some?
  {
    match job
    case Chargeback(_, _, _, _) => Chargebacked(db, job, m, throws)
    case Approved(_, _, _, _, _) => Purchase(db, job, throws)
    case Confirm(_, _, _, _) => Purchase(db, job, throws)
    case Refunded(_, _, _, _) => Reversal(db, job, throws)
    case _ => (db, true)
  }

  /** The end of the transaction: all of it, or of all of it only the credits. */
  ghost function Closed(db: Db, inside: (Db, bool), throws: set<Pc>): (Db, bool) {
    if inside.1 && !(Commit in throws) then inside else (db.(purse := inside.0.purse), false)
  }

  /** A whole delivery: the rows it leaves, and whether it was applied. */
  ghost function Deliver(db: Db, job: Job, required: int, m: Mints, throws: set<Pc>): (Db, bool)
    requires WebhookOf(job).Some?
  {
    if Start in throws || !Fresh(db, job, required) || Dedup in throws then (db, false)
    else Closed(db, Applied(Marked(db, job), job, m, throws), throws)
  }

  // ----- Each of them is what the engine does -----

  lemma LoneDeliveryStart(db: Db, gate: Gate, job: Job, at: Place, m: Mints, throws: set<Pc>)
    requires WebhookOf(job).Some?
    ensures Next(Lone(db, gate, map[], Begin(job), at), at, m, throws)
         == if Start in throws || !Fresh(db, job, at.required) then Lone(db, gate, map[], Begin(job).(pc := Done), at)
            else Lone(db, gate, map[], Begin(job).(pc := Dedup), at)
  {
    hide Finish;
    LoneMoves(db, gate, map[], Begin(job), Begin(job), at);
  }

  function AfterDedup(job: Job): Pc {
    if job.Chargeback? then Find
    else if job.Other? then Commit
    else if job.Approved? && job.credits.None? then Record
    else KeyCheck
  }

  lemma LoneDedup(db: Db, gate: Gate, job: Job, at: Place, m: Mints, throws: set<Pc>)
    requires Fresh(db, job, at.required) && !(Dedup in throws)
    ensures Next(Lone(db, gate, map[], Begin(job).(pc := Dedup), at), at, m, throws)
         == Lone(db, gate, map[WebhookId(WebhookOf(job).value) := at.call], Begin(job).(pc := AfterDedup(job)), at)
  {
    hide Finish;
  }

  lemma SameCall(job: Job, w: Worker)
    requires w.job == job && WebhookOf(job).Some?
    ensures Credit(w) == CallOf(job)
  {
  }

  lemma LoneRecord(db: Db, gate: Gate, locks: map<Resource, nat>, w: Worker, at: Place, m: Mints, throws: set<Pc>)
    returns (locks': map<Resource, nat>, record: Option<ChargeRecord>)
    requires Mine(at, locks) && w.pc == Record && w.record.None? && !(Record in throws)
    ensures Mine(at, locks')
    ensures Next(Lone(db, gate, locks, w, at), at, m, throws)
         == Lone(db, gate, locks', w.(pc := Commit, record := record), at)
    ensures db.charges + (if record.Some? then [record.value] else []) == ChargesWith(db.charges, w.job)
  {
    hide RecordOf, HasCharge;
    var rec := RecordOf(w.job);
    if RecordsCharge(w.job) && !HasCharge(db.charges, rec.gateway, rec.txn) {
      locks', record := locks[ChargeId(rec.gateway, rec.txn) := at.call], Some(rec);
    } else {
      locks', record := locks, None;
      assert db.charges + [] == db.charges;
    }
  }

  /** The end of every delivery: commit, or throw there. */
  lemma CommitDelivery(s: State, db: Db, gate: Gate, locks: map<Resource, nat>, v: Worker, at: Place, m: Mints,
      throws: set<Pc>)
    returns (w: Worker)
    requires Mine(at, locks) && v.pc == Commit && !v.job.Process?
    requires Leads(s, Lone(db, gate, locks, v, at), at, m, throws)
    ensures w.pc == Done && Leads(s, Lone(if Commit in throws then db else Committed(db, v), gate, map[], w, at), at, m, throws)
  {
    hide Leads, Next, Committed;
    LeadsStep(s, Lone(db, gate, locks, v, at), at, m, throws);
    w := v.(pc := Done, post := None, record := None);
    if Commit in throws {
      LoneThrow(db, gate, locks, v, at, m, throws);
    } else {
      LoneCommit(db, gate, locks, v, at, m, throws);
    }
  }

  lemma RecordLeads(s: State, db: Db, gate: Gate, locks: map<Resource, nat>, v: Worker, at: Place, m: Mints,
      throws: set<Pc>)
    returns (w: Worker)
    requires Mine(at, locks) && v.pc == Record && v.record.None? && v.post.None? && (v.job.Approved? || v.job.Confirm?)
    requires Leads(s, Lone(db, gate, locks, v, at), at, m, throws)
    ensures var end := if Record in throws || Commit in throws then db
                       else Marked(db, v.job).(charges := ChargesWith(db.charges, v.job));
            w.pc == Done && Leads(s, Lone(end, gate, map[], w, at), at, m, throws)
  {
    hide Leads, Next, RecordOf, RecordsCharge, HasCharge, ChargesWith;
    LeadsStep(s, Lone(db, gate, locks, v, at), at, m, throws);
    if Record in throws {
      LoneThrow(db, gate, locks, v, at, m, throws);
      w := v.(pc := Done);
    } else {
      var locks1, record := LoneRecord(db, gate, locks, v, at, m, throws);
      w := CommitDelivery(s, db, gate, locks1, v.(pc := Commit, record := record), at, m, throws);
    }
  }

  lemma PurchaseLeads(s: State, db: Db, gate: Gate, job: Job, at: Place, m: Mints, throws: set<Pc>)
    returns (w: Worker)
    requires Fresh(db, job, at.required) && (job.Approved? || job.Confirm?)
    requires Leads(s, Lone(db, gate, map[WebhookId(WebhookOf(job).value) := at.call], Begin(job).(pc := AfterDedup(job)), at), at, m, throws)
    ensures w.pc == Done && Leads(s, Lone(Closed(db, Purchase(Marked(db, job), job, throws), throws).0, gate, map[], w, at), at, m, throws)
  {
    hide Leads, Next, CreditKey, Credited, CreditSucceeds, ChargesWith, RecordOf, RecordsCharge;
    var locks := map[WebhookId(WebhookOf(job).value) := at.call];
    var v := Begin(job).(pc := AfterDedup(job));
    if Grants(job) {
      SameCall(job, v);
      var bal := CreditLeads(s, db, gate, locks, v, at, m, throws);
      if CreditSucceeds(db.purse, CallOf(job), throws) {
        var granted := db.(purse := Credited(db.purse, CallOf(job), throws));
        w := RecordLeads(s, granted, gate, locks, v.(bal := bal, pc := Record), at, m, throws);
      } else {
        w := v.(bal := bal, pc := Done);
        RefusedCredit(db.purse, CallOf(job), throws);
        assert db.(purse := db.purse) == db;
      }
    } else {
      w := RecordLeads(s, db, gate, locks, v, at, m, throws);
    }
  }

  lemma RefusedCredit(p: C.Purse, c: CreditCall, throws: set<Pc>)
    requires !CreditSucceeds(p, c, throws)
    ensures Credited(p, c, throws) == p
  {
    hide CreditSucceeds;
  }

  lemma ReversalLeads(s: State, db: Db, gate: Gate, job: Job, at: Place, m: Mints, throws: set<Pc>)
    returns (w: Worker)
    requires Fresh(db, job, at.required) && job.Refunded?
    requires Leads(s, Lone(db, gate, map[WebhookId(WebhookOf(job).value) := at.call], Begin(job).(pc := KeyCheck), at), at, m, throws)
    ensures w.pc == Done && Leads(s, Lone(Closed(db, Reversal(Marked(db, job), job, throws), throws).0, gate, map[], w, at), at, m, throws)
  {
    hide Leads, Next, CreditKey, Credited, CreditSucceeds;
    var locks := map[WebhookId(WebhookOf(job).value) := at.call];
    var v := Begin(job).(pc := KeyCheck);
    SameCall(job, v);
    var bal := CreditLeads(s, db, gate, locks, v, at, m, throws);
    var deducted := db.(purse := Credited(db.purse, CallOf(job), throws));
    w := CommitDelivery(s, deducted, gate, locks, v.(bal := bal, pc := Commit), at, m, throws);
  }

  lemma LoneFind(db: Db, gate: Gate, locks: map<Resource, nat>, w: Worker, at: Place, m: Mints, throws: set<Pc>,
      opening: map<string, int>)
    returns (d: string)
    requires Mine(at, locks) && w.pc == Find && w.job.Chargeback? && !(Find in throws) && RowsOk(db, gate, opening)
    ensures HasDispute(db.disputes, DisputeKey(w.job.charge)) ==>
              d in db.disputes && Next(Lone(db, gate, locks, w, at), at, m, throws)
                                  == Lone(db, gate, locks, w.(disp := d, dis := db.disputes[d], pc := Commit), at)
    ensures !HasDispute(db.disputes, DisputeKey(w.job.charge)) ==>
              Next(Lone(db, gate, locks, w, at), at, m, throws) == Lone(db, gate, locks, w.(pc := Insert), at)
  {
    hide RowsOk, DisputeKey;
    d := "";
    LoneMoves(db, gate, locks, w, w.(pc := Insert), at);
    if HasDispute(db.disputes, DisputeKey(w.job.charge)) {
      d := FindDispute(db.disputes, DisputeKey(w.job.charge));
      FoundIsReversed(db, gate, opening, d);
      LoneMoves(db, gate, locks, w, w.(disp := d, dis := db.disputes[d], pc := Commit), at);
    }
  }

  lemma LoneInsert(db: Db, gate: Gate, locks: map<Resource, nat>, w: Worker, at: Place, m: Mints, throws: set<Pc>)
    requires Mine(at, locks) && w.pc == Insert && w.job.Chargeback? && !(Insert in throws)
    requires !HasDispute(db.disputes, DisputeKey(w.job.charge)) && m.dispute !in db.disputes && DisputeRow(m.dispute) !in locks
    ensures Next(Lone(db, gate, locks, w, at), at, m, throws)
         == Lone(db, gate, locks[DisputeId(DisputeKey(w.job.charge)) := at.call][DisputeRow(m.dispute) := at.call],
                 w.(made := true, disp := m.dispute, pc := Check,
                    dis := Dispute(w.job.user, DisputeKey(w.job.charge), w.job.charge, w.job.amount, OPEN, None)), at)
  {
    hide DisputeKey, HasDispute;
  }

  /** From the linked reversal on: credits, commit. */
  lemma LinkedLeads(s: State, db: Db, gate: Gate, locks: map<Resource, nat>, v: Worker, at: Place, m: Mints,
      throws: set<Pc>)
    returns (w: Worker)
    requires Mine(at, locks) && v.job.Chargeback? && v.pc == KeyCheck && v.linked && v.disp == m.dispute && v.txnId == m.txn
    requires v.dis == Dispute(v.job.user, DisputeKey(v.job.charge), v.job.charge, v.job.amount, OPEN, None)
    requires !L.HasKey(db.books.txns, LedgerKey(ReversalOf(v.job.charge))) && CreditsRow(v.job.user) !in locks
    requires v.post == Some(L.Txn(m.txn, Some(LedgerKey(ReversalOf(v.job.charge))), Some(ReversalOf(v.job.charge)),
                                  ReversalLines(v.job.user, v.job.amount)))
    requires Leads(s, Lone(db, gate, locks, v, at), at, m, throws)
    ensures w.pc == Done
    ensures var end := if Commit in throws then db.(purse := Credited(db.purse, CallOf(v.job), throws))
                       else Reversed(Marked(db, v.job), v.job, m, throws);
            Leads(s, Lone(end, gate, map[], w, at), at, m, throws)
  {
    hide Leads, Next, CreditKey, LedgerKey, DisputeKey, Credited, CreditSucceeds, L.HasKey, Recorded, Booked;
    SameCall(v.job, v);
    var bal := CreditLeads(s, db, gate, locks, v, at, m, throws);
    var deducted := db.(purse := Credited(db.purse, CallOf(v.job), throws));
    var v1 := v.(bal := bal, pc := Commit);
    BookedIsRecorded(db.books, v1, m.txn, ReversalOf(v.job.charge), ReversalLines(v.job.user, v.job.amount));
    w := CommitDelivery(s, deducted, gate, locks, v1, at, m, throws);
  }

  /** From the inserted dispute on: reversal, link, credits, commit. */
  lemma OpeningLeads(s: State, db: Db, gate: Gate, locks: map<Resource, nat>, v: Worker, at: Place, m: Mints,
      throws: set<Pc>)
    returns (w: Worker)
    requires Mine(at, locks) && v.job.Chargeback? && v.pc == Check && v.post.None? && v.record.None? && v.disp == m.dispute
    requires v.dis == Dispute(v.job.user, DisputeKey(v.job.charge), v.job.charge, v.job.amount, OPEN, None)
    requires !L.HasKey(db.books.txns, LedgerKey(ReversalOf(v.job.charge))) && !L.HasId(db.books.txns, m.txn)
    requires TxnRow(m.txn) !in locks && CreditsRow(v.job.user) !in locks
    requires Leads(s, Lone(db, gate, locks, v, at), at, m, throws)
    ensures w.pc == Done
    ensures var end := if !LedgerSucceeds(db.books, ReversalOf(v.job.charge), v.job.amount, throws) || Link in throws then db
                       else if Commit in throws then db.(purse := Credited(db.purse, CallOf(v.job), throws))
                       else Reversed(Marked(db, v.job), v.job, m, throws);
            Leads(s, Lone(end, gate, map[], w, at), at, m, throws)
  {
    hide Leads, Next, CreditKey, LedgerKey, DisputeKey, Credited, L.HasKey, L.HasId, Reversed, CallOf, Marked;
    LedgerLeads(s, db, gate, locks, v, at, m, throws);
    w := v.(pc := Done);
    if LedgerSucceeds(db.books, ReversalOf(v.job.charge), v.job.amount, throws) {
      var v1 := AfterLedger(db.books, v, m.txn);
      var locks1 := LedgerLocks(at, db.books, locks, v, m.txn);
      LeadsStep(s, Lone(db, gate, locks1, v1, at), at, m, throws);
      if Link in throws {
        LoneThrow(db, gate, locks1, v1, at, m, throws);
        w := v1.(pc := Done, post := None, record := None);
      } else {
        LoneLink(db, gate, locks1, v1, at, m, throws);
        w := LinkedLeads(s, db, gate, locks1[DisputeRow(m.dispute) := at.call], v1.(linked := true, pc := KeyCheck), at, m, throws);
      }
    }
  }

  lemma ChargebackedClosed(db: Db, job: Job, m: Mints, throws: set<Pc>)
    requires job.Chargeback? && !(Find in throws) && !HasDispute(db.disputes, DisputeKey(job.charge)) && !(Insert in throws)
    ensures Closed(db, Chargebacked(Marked(db, job), job, m, throws), throws).0
         == if !LedgerSucceeds(db.books, ReversalOf(job.charge), job.amount, throws) || Link in throws then db
            else if Commit in throws then db.(purse := Credited(db.purse, CallOf(job), throws))
            else Reversed(Marked(db, job), job, m, throws)
  {
    hide LedgerSucceeds, Credited, Recorded, CallOf, DisputeKey, HasDispute;
  }

  lemma ChargebackLeads(s: State, db: Db, gate: Gate, job: Job, at: Place, m: Mints, throws: set<Pc>,
      opening: map<string, int>)
    returns (w: Worker)
    requires Fresh(db, job, at.required) && job.Chargeback? && RowsOk(db, gate, opening)
    requires !L.HasId(db.books.txns, m.txn) && m.dispute !in db.disputes
    requires Leads(s, Lone(db, gate, map[WebhookId(WebhookOf(job).value) := at.call], Begin(job).(pc := Find), at), at, m, throws)
    ensures w.pc == Done && Leads(s, Lone(Closed(db, Chargebacked(Marked(db, job), job, m, throws), throws).0, gate, map[], w, at), at, m, throws)
  {
    hide Leads, Next, RowsOk, LedgerKey, DisputeKey, L.HasKey, L.HasId, HasDispute, LedgerSucceeds, Credited, Recorded,
         CallOf;
    var locks := map[WebhookId(WebhookOf(job).value) := at.call];
    var v := Begin(job).(pc := Find);
    LeadsStep(s, Lone(db, gate, locks, v, at), at, m, throws);
    if Find in throws {
      LoneThrow(db, gate, locks, v, at, m, throws);
      w := v.(pc := Done);
    } else {
      var d := LoneFind(db, gate, locks, v, at, m, throws, opening);
      if HasDispute(db.disputes, DisputeKey(job.charge)) {
        var v1 := v.(disp := d, dis := db.disputes[d], pc := Commit);
        w := CommitDelivery(s, db, gate, locks, v1, at, m, throws);
      } else {
        var v1 := v.(pc := Insert);
        w := InsertLeads(s, db, gate, job, v1, at, m, throws, opening);
      }
    }
  }

  /** From the insert of the dispute on. */
  lemma InsertLeads(s: State, db: Db, gate: Gate, job: Job, v: Worker, at: Place, m: Mints, throws: set<Pc>, opening: map<string, int>)
    returns (w: Worker)
    requires Fresh(db, job, at.required) && job.Chargeback? && RowsOk(db, gate, opening)
    requires !L.HasId(db.books.txns, m.txn) && m.dispute !in db.disputes && !HasDispute(db.disputes, DisputeKey(job.charge))
    requires !(Find in throws) && v == Begin(job).(pc := Insert)
    requires Leads(s, Lone(db, gate, map[WebhookId(WebhookOf(job).value) := at.call], v, at), at, m, throws)
    ensures w.pc == Done && Leads(s, Lone(Closed(db, Chargebacked(Marked(db, job), job, m, throws), throws).0, gate, map[], w, at), at, m, throws)
  {
    hide Leads, Next, RowsOk, LedgerKey, DisputeKey, L.HasKey, L.HasId, HasDispute, LedgerSucceeds, Credited, Recorded,
         CallOf;
    var locks := map[WebhookId(WebhookOf(job).value) := at.call];
    LeadsStep(s, Lone(db, gate, locks, v, at), at, m, throws);
    if Insert in throws {
      LoneThrow(db, gate, locks, v, at, m, throws);
      w := v.(pc := Done);
    } else {
      LoneInsert(db, gate, locks, v, at, m, throws);
      var v2 := v.(made := true, disp := m.dispute, pc := Check,
                   dis := Dispute(job.user, DisputeKey(job.charge), job.charge, job.amount, OPEN, None));
      NoReversalYet(db, gate, opening, job.charge);
      ChargebackedClosed(db, job, m, throws);
      w := OpeningLeads(s, db, gate, locks[DisputeId(DisputeKey(job.charge)) := at.call][DisputeRow(m.dispute) := at.call], v2, at, m, throws);
    }
  }

  /** A charge with no dispute has no reversal. */
  lemma NoReversalYet(db: Db, gate: Gate, opening: map<string, int>, charge: string)
    requires RowsOk(db, gate, opening) && !HasDispute(db.disputes, DisputeKey(charge))
    ensures !L.HasKey(db.books.txns, LedgerKey(ReversalOf(charge)))
  {
    hide RowsOk, LedgerKey, DisputeKey;
    KeyMeansSource(db, gate, opening, ReversalOf(charge));
    if L.HasKey(db.books.txns, LedgerKey(ReversalOf(charge))) {
      ReversalHasDispute(db, gate, opening, charge);
    }
  }

  lemma ReversalHasDispute(db: Db, gate: Gate, opening: map<string, int>, charge: string)
    requires RowsOk(db, gate, opening) && HasSource(db.books.txns, ReversalOf(charge))
    ensures HasDispute(db.disputes, DisputeKey(charge))
  {
    hide LedgerKey, L.Sound, C.Sound;
    var k :| 0 <= k < |db.books.txns| && db.books.txns[k].source == Some(ReversalOf(charge));
    assert TxnOk(db, db.books.txns[k]);
    var d :| d in db.disputes && db.disputes[d].charge == charge;
    assert DisputeOk(db, db.disputes[d]);
  }

  lemma AcknowledgedClosed(db: Db, job: Job, throws: set<Pc>)
    requires job.Other?
    ensures Closed(db, (Marked(db, job), true), throws).0 == if Commit in throws then db else Committed(db, Begin(job).(pc := Commit))
  {
  }

  /** A whole delivery, with any of its statements throwing, is a run of the engine. */
  lemma DeliverCompletes(db: Db, gate: Gate, required: int, job: Job, m: Mints, throws: set<Pc>,
      opening: map<string, int>)
    requires WebhookOf(job).Some? && RowsOk(db, gate, opening) && !L.HasId(db.books.txns, m.txn) && m.dispute !in db.disputes
    ensures Completes(db, gate, required, job, m, throws, Deliver(db, job, required, m, throws).0, gate)
  {
    hide CompletesAt, Deliver, RowsOk, L.HasId;
    forall at: Place | New(at, required)
      ensures CompletesAt(at, db, gate, job, m, throws, Deliver(db, job, required, m, throws).0, gate)
    {
      DeliverAt(at, db, gate, job, m, throws, opening);
    }
  }

  lemma DeliverAt(at: Place, db: Db, gate: Gate, job: Job, m: Mints, throws: set<Pc>, opening: map<string, int>)
    requires WebhookOf(job).Some? && RowsOk(db, gate, opening) && !L.HasId(db.books.txns, m.txn) && m.dispute !in db.disputes
    ensures CompletesAt(at, db, gate, job, m, throws, Deliver(db, job, at.required, m, throws).0, gate)
  {
    hide Leads, Next, RowsOk, L.HasId, Purchase, Reversal, Chargebacked, Fresh, Marked, Closed;
    var s := Lone(db, gate, map[], Begin(job), at);
    LeadsNow(s, at, m, throws);
    LeadsStep(s, s, at, m, throws);
    LoneDeliveryStart(db, gate, job, at, m, throws);
    if !(Start in throws) && Fresh(db, job, at.required) {
      var v := Begin(job).(pc := Dedup);
      LeadsStep(s, Lone(db, gate, map[], v, at), at, m, throws);
      if Dedup in throws {
        LoneThrow(db, gate, map[], v, at, m, throws);
      } else {
        LoneDedup(db, gate, job, at, m, throws);
        var w: Worker;
        match job
        case Chargeback(_, _, _, _) => w := ChargebackLeads(s, db, gate, job, at, m, throws, opening);
        case Approved(_, _, _, _, _) => w := PurchaseLeads(s, db, gate, job, at, m, throws);
        case Confirm(_, _, _, _) => w := PurchaseLeads(s, db, gate, job, at, m, throws);
        case Refunded(_, _, _, _) => w := ReversalLeads(s, db, gate, job, at, m, throws);
        case Other(_) =>
          AcknowledgedClosed(db, job, throws);
          w := CommitDelivery(s, db, gate, map[WebhookId(WebhookOf(job).value) := at.call], Begin(job).(pc := Commit), at, m, throws);
        case _ =>
      }
    }
  }

  /**
   * The same for a chargeback: on a charge without a dispute and without a deduction, a
   * delivery leaves the deduction without the dispute if and only if everything up to and
   * including the credits call goes through, the balance covers it, and the commit throws.
   */
  lemma DeductionWithoutDispute(db: Db, gate: Gate, job: Job, required: int, m: Mints, throws: set<Pc>, opening: map<string, int>)
    requires RowsOk(db, gate, opening) && job.Chargeback? && !HasDispute(db.disputes, DisputeKey(job.charge))
    requires !C.HasKey(db.purse.log, CreditKey(ChargebackDeduct(job.charge)))
    ensures var end := Deliver(db, job, required, m, throws).0;
            C.HasKey(end.purse.log, CreditKey(ChargebackDeduct(job.charge))) && !HasDispute(end.disputes, DisputeKey(job.charge))
            <==> && job.event != "" && job.event !in db.webhooks && job.amount > 0 && C.Balance(db.purse.balances, job.user) >= job.amount
                 && throws !! {Start, Dedup, Find, Insert, Check, Post, Link, KeyCheck} && Commit in throws
  {
    hide RowsOk, CreditKey, LedgerKey, DisputeKey, Recorded, L.HasKey, C.HasKey, C.Balance;
    NoReversalYet(db, gate, opening, job.charge);
    var key := CreditKey(ChargebackDeduct(job.charge));
    AppendedKey(db.purse.log, C.CreditTxn(job.user, -job.amount, C.USAGE, Some(key), Some(ChargebackDeduct(job.charge))), key);
    var filed := db.disputes[m.dispute := Dispute(job.user, DisputeKey(job.charge), job.charge, job.amount, OPEN, Some(m.txn))];
    assert filed[m.dispute].gatewayDisputeId == DisputeKey(job.charge) && m.dispute in filed;
  }

  /**
   * A delivery in which nothing throws is applied exactly when its id is new, it is deep
   * enough, and it carries amounts that can be posted; what deliveries before it left behind
   * makes no difference.
   */
  lemma UninterruptedDeliveryIsApplied(db: Db, gate: Gate, job: Job, required: int, m: Mints, opening: map<string, int>)
    requires RowsOk(db, gate, opening) && WebhookOf(job).Some?
    ensures Deliver(db, job, required, m, {}).1 <==>
              match job
              case Approved(event, _, _, credits, _) => event != "" && event !in db.webhooks && (credits.None? || credits.value > 0)
              case Confirm(hash, _, amount, depth) => hash != "" && hash !in db.webhooks && depth >= required && amount > 0
              case Refunded(event, _, _, _) => event != "" && event !in db.webhooks
              case Chargeback(event, charge, _, amount) =>
                event != "" && event !in db.webhooks
                && (amount > 0 || exists d :: d in db.disputes && db.disputes[d].gatewayDisputeId == "an_dispute_" + charge)
              case Other(event) => event != "" && event !in db.webhooks
              case _ => false
  {
    hide RowsOk, CreditKey, LedgerKey, Credited, Recorded, L.HasKey, C.HasKey, ChargesWith, C.Balance;
    if job.Chargeback? && !HasDispute(db.disputes, DisputeKey(job.charge)) {
      NoReversalYet(db, gate, opening, job.charge);
    }
  }
}
