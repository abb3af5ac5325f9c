/** What one uninterrupted call of the disputes service leaves behind. */
module DisputeCalls {
  import opened Prelude
  import opened Keys
  import opened Engine
  import opened Invariant
  import opened Steps
  import opened Calls
  import opened Serial
  import L = Ledger
  import C = Credits

  function OutcomeSource(d: string, won: bool): LedgerSource {
    if won then WonOf(d) else LostOf(d)
  }

  function OutcomeLines(x: Dispute, won: bool, fee: int): seq<L.Entry> {
    if won then WonLines(x.user, x.amount) else FeeLines(x.user, fee)
  }

  function RestoreOf(d: string, x: Dispute): CreditCall {
    CreditCall(x.user, x.amount, true, C.REFUND, WonGrant(d))
  }

  ghost predicate OutcomePosted(db: Db, d: string, won: bool, fee: int, throws: set<Pc>)
    requires d in db.disputes
  {
    LedgerSucceeds(db.books, OutcomeSource(d, won), if won then db.disputes[d].amount else fee, throws)
  }

  /** The credits a WON outcome restores; a LOST one leaves them alone. */
  ghost function Restored(db: Db, d: string, won: bool, throws: set<Pc>): Db
    requires d in db.disputes
  {
    if won then db.(purse := Credited(db.purse, RestoreOf(d, db.disputes[d]), throws)) else db
  }

  ghost predicate OutcomeSucceeds(db: Db, d: string, won: bool, fee: int, throws: set<Pc>) {
    && !(Start in throws) && d in db.disputes && !Resolved(db.disputes[d].status)
    && OutcomePosted(db, d, won, fee, throws) && !(Resolve in throws) && !(Commit in throws)
  }

  /** setOutcome, with handleWon or handleLost */
  ghost function SetOutcome(db: Db, d: string, won: bool, fee: int, m: Mints, throws: set<Pc>): Db {
    if Start in throws || d !in db.disputes || Resolved(db.disputes[d].status) || !OutcomePosted(db, d, won, fee, throws) then db
    else
      var x := db.disputes[d];
      var restored := Restored(db, d, won, throws);
      if Resolve in throws || Commit in throws then restored
      else restored.(books := Recorded(db.books, OutcomeSource(d, won), OutcomeLines(x, won, fee), m.txn),
                     disputes := db.disputes[d := x.(status := if won then WON else LOST)])
  }

  lemma LoneOutcomeStart(db: Db, gate: Gate, d: string, won: bool, fee: int, at: Place, m: Mints, throws: set<Pc>)
    ensures var w := Begin(Outcome(d, won, fee));
            Next(Lone(db, gate, map[], w, at), at, m, throws)
            == if Start in throws || d !in db.disputes || Resolved(db.disputes[d].status)
               then Lone(db, gate, map[], w.(pc := Done), at)
               else Lone(db, gate, map[], w.(disp := d, dis := db.disputes[d], pc := Check), at)
  {
    hide Finish;
    LoneMoves(db, gate, map[], Begin(Outcome(d, won, fee)), Begin(Outcome(d, won, fee)), at);
  }

  lemma LoneResolve(db: Db, gate: Gate, locks: map<Resource, nat>, w: Worker, at: Place, m: Mints, throws: set<Pc>)
    requires Mine(at, locks) && w.pc == Resolve && !(Resolve in throws)
    ensures Next(Lone(db, gate, locks, w, at), at, m, throws)
         == Lone(db, gate, locks[DisputeRow(w.disp) := at.call], w.(pc := Commit), at)
  {
  }

  /** From the resolved status on: lock the row, commit everything. */
  lemma ResolveLeads(s: State, db: Db, books: L.Books, gate: Gate, locks: map<Resource, nat>, v: Worker, at: Place,
      m: Mints, throws: set<Pc>)
    returns (w: Worker)
    requires Mine(at, locks) && v.job.Outcome? && v.pc == Resolve && v.disp == v.job.dispute && v.disp in db.disputes
    requires v.record.None? && Booked(db.books, v) == books
    requires Leads(s, Lone(db, gate, locks, v, at), at, m, throws)
    ensures var x := db.disputes[v.disp];
            var end := if Resolve in throws || Commit in throws then db
                       else db.(books := books, disputes := db.disputes[v.disp := x.(status := if v.job.won then WON else LOST)]);
            w.pc == Done && Leads(s, Lone(end, gate, map[], w, at), at, m, throws)
  {
    hide Leads, Next, Booked;
    LeadsStep(s, Lone(db, gate, locks, v, at), at, m, throws);
    w := v.(pc := Done, post := None, record := None);
    if Resolve in throws {
      LoneThrow(db, gate, locks, v, at, m, throws);
    } else {
      LoneResolve(db, gate, locks, v, at, m, throws);
      var v1 := v.(pc := Commit);
      var locks1 := locks[DisputeRow(v.disp) := at.call];
      LeadsStep(s, Lone(db, gate, locks1, v1, at), at, m, throws);
      if Commit in throws {
        LoneThrow(db, gate, locks1, v1, at, m, throws);
      } else {
        LoneCommit(db, gate, locks1, v1, at, m, throws);
        SameBooked(db.books, v, Commit);
      }
    }
  }

  lemma SameBooked(books: L.Books, w: Worker, pc: Pc)
    ensures Booked(books, w.(pc := pc)) == Booked(books, w)
  {
  }

  lemma RestoreLeads(s: State, db: Db, gate: Gate, locks: map<Resource, nat>, v: Worker, at: Place, m: Mints,
      throws: set<Pc>)
    returns (w: Worker)
    requires Mine(at, locks) && v.job.Outcome? && v.job.won && v.pc == KeyCheck && v.job.dispute in db.disputes
    requires v.dis == db.disputes[v.job.dispute] && CreditsRow(v.dis.user) !in locks
    requires Leads(s, Lone(db, gate, locks, v, at), at, m, throws)
    ensures w == v.(pc := Resolve, bal := w.bal)
    ensures Leads(s, Lone(Restored(db, v.job.dispute, true, throws), gate, locks, w, at), at, m, throws)
  {
    hide Leads, Credited, CreditSucceeds, CreditKey;
    assert Credit(v) == RestoreOf(v.job.dispute, v.dis);
    var bal := CreditLeads(s, db, gate, locks, v, at, m, throws);
    w := v.(bal := bal, pc := Resolve);
  }

  function Reading(d: string, x: Dispute, won: bool, fee: int): Worker {
    Begin(Outcome(d, won, fee)).(disp := d, dis := x, pc := Check)
  }

  /** From the posted outcome on: credits if won, then the row. */
  lemma PostedLeads(s: State, db: Db, gate: Gate, d: string, won: bool, fee: int, at: Place, m: Mints,
      throws: set<Pc>)
    returns (w: Worker)
    requires d in db.disputes && !(Start in throws) && !Resolved(db.disputes[d].status) && OutcomePosted(db, d, won, fee, throws)
    requires var v := Reading(d, db.disputes[d], won, fee);
             Leads(s, Lone(db, gate, LedgerLocks(at, db.books, map[], v, m.txn), AfterLedger(db.books, v, m.txn), at), at, m, throws)
    ensures w.pc == Done && Leads(s, Lone(SetOutcome(db, d, won, fee, m, throws), gate, map[], w, at), at, m, throws)
  {
    hide Leads, Next, L.HasKey, LedgerKey, CreditKey, Booked, Recorded, Credited, OutcomePosted;
    var v := Reading(d, db.disputes[d], won, fee);
    var v1 := AfterLedger(db.books, v, m.txn);
    var locks1 := LedgerLocks(at, db.books, map[], v, m.txn);
    var mid := db;
    if won {
      v1 := RestoreLeads(s, db, gate, locks1, v1, at, m, throws);
      mid := Restored(db, d, true, throws);
    }
    BookedIsRecorded(db.books, v1, m.txn, OutcomeSource(d, won), OutcomeLines(db.disputes[d], won, fee));
    w := ResolveLeads(s, mid, Recorded(db.books, OutcomeSource(d, won), OutcomeLines(db.disputes[d], won, fee), m.txn),
                      gate, locks1, v1, at, m, throws);
  }

  /** A whole setOutcome call, with any of its statements throwing, is a run of the engine. */
  lemma SetOutcomeCompletes(db: Db, gate: Gate, required: int, d: string, won: bool, fee: int, m: Mints, throws: set<Pc>)
    requires !L.HasId(db.books.txns, m.txn)
    ensures Completes(db, gate, required, Outcome(d, won, fee), m, throws, SetOutcome(db, d, won, fee, m, throws), gate)
  {
    hide CompletesAt, SetOutcome, L.HasId;
    forall at: Place | New(at, required)
      ensures CompletesAt(at, db, gate, Outcome(d, won, fee), m, throws, SetOutcome(db, d, won, fee, m, throws), gate)
    {
      SetOutcomeAt(at, db, gate, d, won, fee, m, throws);
    }
  }

  lemma SetOutcomeAt(at: Place, db: Db, gate: Gate, d: string, won: bool, fee: int, m: Mints, throws: set<Pc>)
    requires !L.HasId(db.books.txns, m.txn)
    ensures CompletesAt(at, db, gate, Outcome(d, won, fee), m, throws, SetOutcome(db, d, won, fee, m, throws), gate)
  {
    hide Leads, Next, L.HasId, L.HasKey, LedgerKey, CreditKey, Booked, Recorded, Credited, LedgerSucceeds;
    var s := Lone(db, gate, map[], Begin(Outcome(d, won, fee)), at);
    LeadsNow(s, at, m, throws);
    LeadsStep(s, s, at, m, throws);
    LoneOutcomeStart(db, gate, d, won, fee, at, m, throws);
    if !(Start in throws || d !in db.disputes || Resolved(db.disputes[d].status)) {
      LedgerLeads(s, db, gate, map[], Reading(d, db.disputes[d], won, fee), at, m, throws);
      if OutcomePosted(db, d, won, fee, throws) {
        var w := PostedLeads(s, db, gate, d, won, fee, at, m, throws);
      }
    }
  }

  /** A call in which nothing throws succeeds exactly on an unresolved dispute, for LOST only with a fee to post or one posted before. */
  lemma UninterruptedOutcomeSucceeds(db: Db, gate: Gate, d: string, won: bool, fee: int, opening: map<string, int>)
    requires RowsOk(db, gate, opening)
    ensures OutcomeSucceeds(db, d, won, fee, {})
       <==> d in db.disputes && (db.disputes[d].status == OPEN || db.disputes[d].status == EVIDENCE_SUBMITTED)
            && (won || fee > 0 || HasSource(db.books.txns, LostOf(d)))
  {
    hide LedgerKey, L.HasKey, HasSource, L.Sound, C.Sound;
    KeyMeansSource(db, gate, opening, LostOf(d));
    if d in db.disputes {
      assert DisputeOk(db, db.disputes[d]);
    }
  }

  // ----- attachEvidence -----

  ghost function AttachEvidence(db: Db, d: string, throws: set<Pc>): Db {
    if Start in throws || Write in throws || d !in db.disputes || db.disputes[d].status != OPEN then db
    else db.(disputes := db.disputes[d := db.disputes[d].(status := EVIDENCE_SUBMITTED)])
  }

  lemma LoneEvidenceStart(db: Db, gate: Gate, d: string, at: Place, m: Mints, throws: set<Pc>)
    ensures var w := Begin(Evidence(d));
            Next(Lone(db, gate, map[], w, at), at, m, throws)
            == Lone(db, gate, map[], w.(pc :=
                 if Start in throws || d !in db.disputes || db.disputes[d].status != OPEN then Done else Write), at)
  {
    hide Finish;
    LoneMoves(db, gate, map[], Begin(Evidence(d)), Begin(Evidence(d)), at);
  }

  lemma LoneEvidenceWrite(db: Db, gate: Gate, d: string, at: Place, m: Mints, throws: set<Pc>)
    requires !(Start in throws) && d in db.disputes && db.disputes[d].status == OPEN
    ensures var w := Begin(Evidence(d)).(pc := Write);
            Next(Lone(db, gate, map[], w, at), at, m, throws)
            == Lone(AttachEvidence(db, d, throws), gate, map[], w.(pc := Done), at)
  {
    hide Finish;
    var w := Begin(Evidence(d)).(pc := Write);
    LoneMoves(db, gate, map[], w, w, at);
    LoneMoves(AttachEvidence(db, d, throws), gate, map[], w, w, at);
  }

  lemma AttachEvidenceCompletes(db: Db, gate: Gate, required: int, d: string, m: Mints, throws: set<Pc>)
    ensures Completes(db, gate, required, Evidence(d), m, throws, AttachEvidence(db, d, throws), gate)
  {
    hide CompletesAt, AttachEvidence;
    forall at: Place | New(at, required)
      ensures CompletesAt(at, db, gate, Evidence(d), m, throws, AttachEvidence(db, d, throws), gate)
    {
      AttachEvidenceAt(at, db, gate, d, m, throws);
    }
  }

  lemma AttachEvidenceAt(at: Place, db: Db, gate: Gate, d: string, m: Mints, throws: set<Pc>)
    ensures CompletesAt(at, db, gate, Evidence(d), m, throws, AttachEvidence(db, d, throws), gate)
  {
    hide Leads, Next;
    var s := Lone(db, gate, map[], Begin(Evidence(d)), at);
    LeadsNow(s, at, m, throws);
    LeadsStep(s, s, at, m, throws);
    LoneEvidenceStart(db, gate, d, at, m, throws);
    if !(Start in throws || d !in db.disputes || db.disputes[d].status != OPEN) {
      LeadsStep(s, Lone(db, gate, map[], Begin(Evidence(d)).(pc := Write), at), at, m, throws);
      LoneEvidenceWrite(db, gate, d, at, m, throws);
    }
  }
}
