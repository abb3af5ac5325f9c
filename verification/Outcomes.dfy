/**
 * Disputes whose calls overlap.
 *
 * Neither setOutcome nor attachEvidence holds its status check until its write. Here is exactly
 * when one late write, and exactly when a whole run, still keeps a dispute's status matched with
 * its postings, and how two outcomes that pass the check together break it.
 */
module Outcomes {
  import opened Prelude
  import opened Keys
  import opened Engine
  import opened Invariant
  import opened Steps
  import opened Machine
  import opened Theorems
  import opened Effects
  import opened Reviews
  import opened Serial
  import opened Progress
  import opened Deliveries
  import L = Ledger

  // ----- Writes that come late -----

  lemma OutcomeCommitted(db: Db, w: Worker, d: string, won: bool, fee: int)
    requires w.job == Outcome(d, won, fee) && d in db.disputes && Matched(db, d)
    requires if w.post.Some? then w.post.value.source == Some(Source(w)) else HasSource(db.books.txns, Source(w))
    ensures Matched(Committed(db, w), d) <==> !Resolved(db.disputes[d].status) || db.disputes[d].status == if won then WON else LOST
  {
    hide HasSource, Booked;
    BookedTxns(db.books, w);
    if w.post.Some? {
      AppendedTxns(db.books.txns, w.post.value, WonOf(d));
      AppendedTxns(db.books.txns, w.post.value, LostOf(d));
    } else {
      assert Committed(db, w).books.txns == db.books.txns;
    }
  }

  /** An outcome that commits keeps status and postings matched exactly when the dispute was not resolved the other way. */
  lemma LateOutcome(s: State, i: nat, mint: string, d: string, won: bool, fee: int, opening: map<string, int>)
    requires Inv(s, opening) && Matched(s.db, d)
    requires i in s.workers && s.workers[i].job == Outcome(d, won, fee) && s.workers[i].pc == Commit
    ensures d in s.db.disputes
    ensures Matched(Do(s, Step(i, mint)).db, d)
       <==> !Resolved(s.db.disputes[d].status) || s.db.disputes[d].status == if won then WON else LOST
  {
    hide Inv, RowsOk, WorkerOk, HasSource, Advance, Matched, Committed, Source;
    OneWorker(s, i, opening);
    OnMeansKnown(s.db, s.gate, s.locks, i, s.workers[i], d);
    OutcomeCommitted(s.db, s.workers[i], d, won, fee);
    CommitIsStep(s, i, mint);
  }

  /** An evidence upload that read OPEN and writes now keeps them matched exactly when the dispute is not resolved by then. */
  lemma LateEvidence(s: State, i: nat, mint: string, d: string)
    requires Matched(s.db, d) && d in s.db.disputes
    requires i in s.workers && s.workers[i].job == Evidence(d) && s.workers[i].pc == Write && Free(s, DisputeRow(d), i)
    ensures var e := Do(s, Step(i, mint));
            && d in e.db.disputes && e.db.disputes[d].status == EVIDENCE_SUBMITTED
            && (Matched(e.db, d) <==> !Resolved(s.db.disputes[d].status))
  {
    hide HasSource, Released;
  }

  // ----- A dispute over a whole run -----

  predicate Resolving(s: State, a: Action, d: string) {
    && a.Step? && a.worker in s.workers && s.workers[a.worker].pc == Commit && s.workers[a.worker].job.Outcome?
    && s.workers[a.worker].job.dispute == d && d in s.db.disputes
  }

  predicate Reopening(s: State, a: Action, d: string) {
    && a.Step? && a.worker in s.workers && s.workers[a.worker].pc == Write && s.workers[a.worker].job == Evidence(d)
    && d in s.db.disputes && Free(s, DisputeRow(d), a.worker)
  }

  /** An outcome finds the dispute not resolved the other way, and an evidence update finds it unresolved. */
  predicate OutcomeInTime(s: State, a: Action, d: string) {
    && (Resolving(s, a, d) ==>
          !Resolved(s.db.disputes[d].status) || s.db.disputes[d].status == if s.workers[a.worker].job.won then WON else LOST)
    && (Reopening(s, a, d) ==> !Resolved(s.db.disputes[d].status))
  }

  /** The step leaves status and postings matched, and the status where it was or higher. */
  ghost predicate Lawful(s: State, e: State, d: string) {
    Matched(e.db, d) && (d in s.db.disputes ==> d in e.db.disputes && Upward(s.db.disputes[d].status, e.db.disputes[d].status))
  }

  lemma ElsewhereLawful(s: State, i: nat, mint: string, d: string, opening: map<string, int>)
    requires Inv(s, opening) && Matched(s.db, d) && i in s.workers && DisputeOfJob(s.workers[i].job) != Some(d)
    ensures Lawful(s, Advance(s, i, mint), d)
  {
    hide Inv, Advance, HasSource, OwnDelivery, OwnLog, OwnRefunds, CreditRow;
    var w := s.workers[i];
    var s' := Advance(s, i, mint);
    StepIsOwned(s, i, mint, opening);
    if s'.db.books.txns != s.db.books.txns {
      AppendedTxns(s.db.books.txns, w.post.value, WonOf(d));
      AppendedTxns(s.db.books.txns, w.post.value, LostOf(d));
    }
    if d !in s.db.disputes {
      UnknownDispute(s, d, opening);
    }
  }

  lemma SameLawful(s: State, e: State, d: string)
    requires Matched(s.db, d) && e.db.books == s.db.books && e.db.disputes == s.db.disputes
    ensures Lawful(s, e, d)
  {
    hide HasSource;
  }

  lemma CommitStatus(db: Db, w: Worker, d: string)
    requires w.job.Outcome? && w.job.dispute == d && d in db.disputes
    ensures d in Committed(db, w).disputes && Committed(db, w).disputes[d].status == if w.job.won then WON else LOST
  {
    hide Booked;
  }

  lemma ResolvingLawful(s: State, a: Action, d: string, opening: map<string, int>)
    requires Inv(s, opening) && Matched(s.db, d) && Resolving(s, a, d)
    ensures Lawful(s, Do(s, a), d) <==> OutcomeInTime(s, a, d)
  {
    hide Inv, Do, Matched, Committed;
    var w := s.workers[a.worker];
    LateOutcome(s, a.worker, a.mint, d, w.job.won, w.job.fee, opening);
    CommitReleases(s, a.worker, a.mint);
    CommitStatus(s.db, w, d);
  }

  lemma ReopeningLawful(s: State, a: Action, d: string)
    requires Matched(s.db, d) && Reopening(s, a, d)
    ensures Lawful(s, Do(s, a), d) <==> OutcomeInTime(s, a, d)
  {
    hide Do, Matched;
    LateEvidence(s, a.worker, a.mint, d);
  }

  /** Any other step of a call on the dispute leaves both alone. */
  lemma PlainLawful(s: State, i: nat, mint: string, d: string, opening: map<string, int>)
    requires Inv(s, opening) && Matched(s.db, d) && i in s.workers && DisputeOfJob(s.workers[i].job) == Some(d)
    requires !Resolving(s, Step(i, mint), d) && !Reopening(s, Step(i, mint), d)
    ensures Lawful(s, Advance(s, i, mint), d)
  {
    hide Inv, Matched, Lawful, DoStart, DoSettle, DoCommit, DoCallGateway, DoDedup, DoFind, DoInsert, DoCheck, DoPost, DoLink, DoKeyCheck,
         DoRowLock, DoRecord, DoResolve, DoFinal, DoCatch, Owned, WorkerOk, RowsOk;
    var w := s.workers[i];
    OneWorker(s, i, opening);
    if w.pc == Done {
      SameLawful(s, s, d);
    } else if w.pc == Start {
      StartSilent(s, i);
      SameLawful(s, Advance(s, i, mint), d);
    } else {
      OnMeansKnown(s.db, s.gate, s.locks, i, w, d);
      if !Visible(w.pc) {
        InvisibleIsSilent(s, i, mint);
      } else if w.pc == Settle {
        SettleOwned(s, i);
      }
      SameLawful(s, Advance(s, i, mint), d);
    }
  }

  lemma DoLawful(s: State, a: Action, d: string, opening: map<string, int>)
    requires Inv(s, opening) && Matched(s.db, d)
    ensures Lawful(s, Do(s, a), d) <==> OutcomeInTime(s, a, d)
  {
    hide Inv, Advance, Throw, Finish, Unanswered, Accepted, Matched, Lawful, OutcomeInTime;
    if Resolving(s, a, d) {
      ResolvingLawful(s, a, d, opening);
    } else if Reopening(s, a, d) {
      ReopeningLawful(s, a, d);
    } else {
      NothingLate(s, a, d);
      match a
      case Step(i, mint) =>
        if i in s.workers {
          if DisputeOfJob(s.workers[i].job) == Some(d) { PlainLawful(s, i, mint, d, opening); } else { ElsewhereLawful(s, i, mint, d, opening); }
        } else {
          SameLawful(s, s, d);
        }
      case FailCall(i) => if i in s.workers { ThrowIsSilent(s, i); } SameLawful(s, Do(s, a), d);
      case LoseAnswer(i) => if i in s.workers { UnansweredIsSilent(s, i); } SameLawful(s, Do(s, a), d);
      case Crash(i) => if i in s.workers { FinishSilent(s, i); } SameLawful(s, Do(s, a), d);
      case _ => SameLawful(s, Do(s, a), d);
    }
  }

  lemma NothingLate(s: State, a: Action, d: string)
    requires !Resolving(s, a, d) && !Reopening(s, a, d)
    ensures OutcomeInTime(s, a, d)
  {
  }

  /** In the run, status and postings always match and the status only moves up. */
  ghost predicate AlwaysLawful(s: State, acts: seq<Action>, d: string) {
    forall n :: 0 <= n < |acts| ==> Lawful(Run(s, acts[..n]), Run(s, acts[..n + 1]), d)
  }

  ghost predicate OutcomesInTime(s: State, acts: seq<Action>, d: string) {
    forall n :: 0 <= n < |acts| ==> OutcomeInTime(Run(s, acts[..n]), acts[n], d)
  }

  lemma InitialMatched(s: State, d: string, opening: map<string, int>)
    requires Initial(s, opening)
    ensures Matched(s.db, d)
  {
  }

  lemma MatchedSoFar(s: State, acts: seq<Action>, n: nat, d: string, opening: map<string, int>)
    requires Initial(s, opening) && n <= |acts|
    requires forall m :: 0 <= m < n ==> Lawful(Run(s, acts[..m]), Run(s, acts[..m + 1]), d)
    ensures Matched(Run(s, acts[..n]).db, d)
  {
    hide Do, Matched, Initial;
    if n == 0 {
      InitialMatched(s, d, opening);
    } else {
      assert Lawful(Run(s, acts[..n - 1]), Run(s, acts[..n - 1 + 1]), d);
    }
  }

  lemma LawfulAt(s: State, acts: seq<Action>, n: nat, d: string, opening: map<string, int>)
    requires Initial(s, opening) && n < |acts| && Matched(Run(s, acts[..n]).db, d)
    ensures Lawful(Run(s, acts[..n]), Run(s, acts[..n + 1]), d) <==> OutcomeInTime(Run(s, acts[..n]), acts[n], d)
  {
    hide Do, Matched, Initial, Inv, Lawful, OutcomeInTime;
    Reachable(s, acts[..n], opening);
    assert acts[..n + 1][..n] == acts[..n];
    DoLawful(Run(s, acts[..n]), acts[n], d, opening);
  }

  lemma {:induction false} InTimeIsLawful(s: State, acts: seq<Action>, n: nat, d: string, opening: map<string, int>)
    requires Initial(s, opening) && n <= |acts| && OutcomesInTime(s, acts, d)
    ensures forall m :: 0 <= m < n ==> Lawful(Run(s, acts[..m]), Run(s, acts[..m + 1]), d)
  {
    hide Run, Matched, Initial, Lawful, OutcomeInTime;
    if n > 0 {
      InTimeIsLawful(s, acts, n - 1, d, opening);
      MatchedSoFar(s, acts, n - 1, d, opening);
      LawfulAt(s, acts, n - 1, d, opening);
    }
  }

  /**
   * Over every run: a dispute's status and outcome postings match throughout and its status
   * only moves up, if and only if every outcome that commits finds it not resolved the other
   * way and every evidence update that writes finds it unresolved.
   */
  lemma LawfulExactlyWhenInTime(s: State, acts: seq<Action>, d: string, opening: map<string, int>)
    requires Initial(s, opening)
    ensures AlwaysLawful(s, acts, d) <==> OutcomesInTime(s, acts, d)
  {
    hide Run, Matched, Initial, Lawful, OutcomeInTime;
    if OutcomesInTime(s, acts, d) {
      InTimeIsLawful(s, acts, |acts|, d, opening);
    }
    if AlwaysLawful(s, acts, d) {
      forall n | 0 <= n < |acts| ensures OutcomeInTime(Run(s, acts[..n]), acts[n], d) {
        MatchedSoFar(s, acts, n, d, opening);
        LawfulAt(s, acts, n, d, opening);
      }
    }
  }

  // ----- WON racing LOST -----

  /** A call that passed its status check on d and has posted nothing yet, with nothing in its way. */
  ghost predicate AboutToPost(s: State, i: nat, d: string, won: bool, fee: int, mint: string) {
    && i in s.workers && s.workers[i].job == Outcome(d, won, fee) && s.workers[i].pc == Check && s.workers[i].post.None?
    && d in s.db.disputes && s.workers[i].disp == d
    && (if won then s.workers[i].dis.amount > 0 else fee > 0)
    && !L.HasKey(s.db.books.txns, LedgerKey(Source(s.workers[i])))
    && Unminted(s, mint)
    && Free(s, DisputeRow(d), i) && Free(s, LedgerId(LedgerKey(Source(s.workers[i]))), i)
  }

  /** The credits call of a WON outcome is let fail, which the outcome swallows. */
  function OutcomeSteps(i: nat, won: bool, mint: string): seq<Action> {
    [Step(i, mint), Step(i, mint)] + (if won then [FailCall(i)] else []) + [Step(i, mint), Step(i, mint)]
  }

  lemma OutcomePosts(s: State, i: nat, d: string, won: bool, fee: int, mint: string)
    requires AboutToPost(s, i, d, won, fee, mint)
    ensures var e := Run(s, [Step(i, mint), Step(i, mint)]);
            && e.db == s.db && i in e.workers && e.workers == s.workers[i := e.workers[i]]
            && e.workers[i].job == Outcome(d, won, fee) && e.workers[i].pc == (if won then KeyCheck else Resolve)
            && e.workers[i].disp == d
            && e.workers[i].post.Some? && e.workers[i].post.value.source == Some(if won then WonOf(d) else LostOf(d))
            && e.workers[i].post.value.key == Some(LedgerKey(if won then WonOf(d) else LostOf(d)))
            && e.workers[i].post.value.id == mint
            && Free(e, DisputeRow(d), i)
            && (forall r :: r in e.locks && r !in s.locks ==> e.locks[r] == i)
            && (forall r :: r in s.locks ==> r in e.locks && e.locks[r] == s.locks[r])
  {
    hide LedgerKey, L.HasKey, L.HasId;
    RunTwo(s, Step(i, mint), Step(i, mint));
  }

  lemma OutcomeResolves(s: State, i: nat, mint: string)
    requires i in s.workers && s.workers[i].pc == Resolve && Free(s, DisputeRow(s.workers[i].disp), i)
    ensures Do(s, Step(i, mint)) == Take(s, DisputeRow(s.workers[i].disp), i, s.workers[i].(pc := Commit))
  {
  }

  lemma OutcomeRows(db: Db, w: Worker)
    requires w.job.Outcome? && w.job.dispute in db.disputes && w.post.Some?
    ensures var d := w.job.dispute;
            && Committed(db, w).books.txns == db.books.txns + [w.post.value]
            && Committed(db, w).disputes == db.disputes[d := db.disputes[d].(status := if w.job.won then WON else LOST)]
            && Committed(db, w).purse == db.purse
  {
    hide Booked;
    BookedTxns(db.books, w);
  }

  lemma OutcomeCommits(s: State, i: nat, mint: string)
    requires i in s.workers && s.workers[i].job.Outcome? && s.workers[i].pc == Resolve && s.workers[i].disp == s.workers[i].job.dispute
    requires s.workers[i].post.Some? && s.workers[i].disp in s.db.disputes && Free(s, DisputeRow(s.workers[i].disp), i)
    ensures var e := Run(s, [Step(i, mint), Step(i, mint)]);
            var d := s.workers[i].job.dispute;
            && e.db.books.txns == s.db.books.txns + [s.workers[i].post.value]
            && e.db.disputes == s.db.disputes[d := s.db.disputes[d].(status := if s.workers[i].job.won then WON else LOST)]
            && e.db.purse == s.db.purse
            && i in e.workers && e.workers == s.workers[i := e.workers[i]]
            && (forall r :: r in e.locks ==> r in s.locks && e.locks[r] == s.locks[r] && e.locks[r] != i)
  {
    hide Do, Committed, Run;
    RunTwo(s, Step(i, mint), Step(i, mint));
    OutcomeResolves(s, i, mint);
    var mid := Do(s, Step(i, mint));
    CommitReleases(mid, i, mint);
    OutcomeRows(s.db, mid.workers[i]);
  }

  lemma SwallowedCredits(s: State, i: nat)
    requires i in s.workers && s.workers[i].job.Outcome? && s.workers[i].pc == KeyCheck
    ensures Run(s, [FailCall(i)]) == s.(workers := s.workers[i := s.workers[i].(pc := Resolve)])
  {
    hide Credit, Advance, Released, Finish, Fail, Accepted;
    RunOne(s, FailCall(i));
  }

  /** Run alone from there, the call posts its outcome and sets its status. */
  lemma OutcomeCompletes(s: State, i: nat, d: string, won: bool, fee: int, mint: string)
    requires AboutToPost(s, i, d, won, fee, mint)
    ensures var e := Run(s, OutcomeSteps(i, won, mint));
            && (exists t :: e.db.books.txns == s.db.books.txns + [t] && t.source == Some(if won then WonOf(d) else LostOf(d))
                            && t.key == Some(LedgerKey(if won then WonOf(d) else LostOf(d))) && t.id == mint)
            && d in e.db.disputes && e.db.disputes[d].status == (if won then WON else LOST) && e.db.purse == s.db.purse
            && i in e.workers && e.workers == s.workers[i := e.workers[i]]
            && (forall r :: r in e.locks ==> r in s.locks && e.locks[r] == s.locks[r] && e.locks[r] != i)
  {
    hide LedgerKey, L.HasKey, L.HasId, Do, Run;
    var post := [Step(i, mint), Step(i, mint)];
    var skip := if won then [FailCall(i)] else [];
    OutcomePosts(s, i, d, won, fee, mint);
    var mid := Run(s, post);
    var resolving := Run(mid, skip);
    if won { SwallowedCredits(mid, i); } else { RunNone(mid); }
    OutcomeCommits(resolving, i, mint);
    RunSplit(s, post, skip);
    RunSplit(s, post + skip, post);
    assert OutcomeSteps(i, won, mint) == post + skip + post;
    assert Run(s, OutcomeSteps(i, won, mint)).db.books.txns == s.db.books.txns + [mid.workers[i].post.value];
  }

  /**
   * Two outcomes that both passed their status check both post: the dispute ends LOST with a
   * fee, and its reversal undone as if it had been won.
   */
  lemma WonAndLostCanBothPost(s: State, i: nat, j: nat, d: string, fee: int, m: string, n: string)
    requires i != j && m != n
    requires AboutToPost(s, i, d, true, 0, m) && AboutToPost(s, j, d, false, fee, n)
    ensures var e := Run(s, OutcomeSteps(i, true, m) + OutcomeSteps(j, false, n));
            && d in e.db.disputes && e.db.disputes[d].status == LOST
            && HasSource(e.db.books.txns, WonOf(d)) && HasSource(e.db.books.txns, LostOf(d))
  {
    hide LedgerKey, Do, Run, OutcomeSteps;
    var a := OutcomeSteps(i, true, m);
    var b := OutcomeSteps(j, false, n);
    OutcomeCompletes(s, i, d, true, 0, m);
    var mid := Run(s, a);
    var t :| mid.db.books.txns == s.db.books.txns + [t] && t.source == Some(WonOf(d)) && t.key == Some(LedgerKey(WonOf(d))) && t.id == m;
    LedgerKeysSeparate(WonOf(d), LostOf(d));
    forall k | 0 <= k < |mid.db.books.txns|
      ensures mid.db.books.txns[k].key != Some(LedgerKey(LostOf(d))) && mid.db.books.txns[k].id != n
    {
      assert k < |s.db.books.txns| ==> mid.db.books.txns[k] == s.db.books.txns[k];
    }
    assert AboutToPost(mid, j, d, false, fee, n);
    OutcomeCompletes(mid, j, d, false, fee, n);
    var u :| Run(mid, b).db.books.txns == mid.db.books.txns + [u] && u.source == Some(LostOf(d));
    AppendedTxns(s.db.books.txns, t, WonOf(d));
    AppendedTxns(mid.db.books.txns, u, WonOf(d));
    AppendedTxns(mid.db.books.txns, u, LostOf(d));
    RunSplit(s, a, b);
  }

  function OutcomeBegins(i: nat, d: string, won: bool, fee: int): seq<Action> {
    [Spawn(i, Outcome(d, won, fee)), Step(i, "")]
  }

  /** A call that reads an unresolved dispute is about to post, and has changed nothing. */
  lemma OutcomeReads(s: State, i: nat, d: string, won: bool, fee: int, mint: string, opening: map<string, int>)
    requires Inv(s, opening) && i !in s.workers && d in s.db.disputes && !Resolved(s.db.disputes[d].status) && Matched(s.db, d)
    requires s.locks == map[] && Unminted(s, mint) && (won || fee > 0)
    ensures var e := Run(s, OutcomeBegins(i, d, won, fee));
            && AboutToPost(e, i, d, won, fee, mint) && e.db == s.db && e.locks == map[] && e.workers == s.workers[i := e.workers[i]]
            && e.workers[i].dis == s.db.disputes[d]
  {
    hide RowsOk, WorkerOk, LedgerKey, L.HasId, L.HasKey;
    RunTwo(s, Spawn(i, Outcome(d, won, fee)), Step(i, ""));
    KeyIsSource(s, if won then WonOf(d) else LostOf(d), opening);
    DisputePositive(s, d, opening);
  }

  /** Any unresolved dispute nobody is working on can be brought to where two outcomes are about to post. */
  lemma TwoOutcomesCanPassTheCheck(s: State, i: nat, j: nat, d: string, fee: int, m: string, n: string,
      opening: map<string, int>)
    requires Inv(s, opening) && i != j && i !in s.workers && j !in s.workers && fee > 0
    requires d in s.db.disputes && !Resolved(s.db.disputes[d].status) && Matched(s.db, d)
    requires s.locks == map[] && Unminted(s, m) && Unminted(s, n)
    ensures var e := Run(s, OutcomeBegins(i, d, true, 0) + OutcomeBegins(j, d, false, fee));
            AboutToPost(e, i, d, true, 0, m) && AboutToPost(e, j, d, false, fee, n)
  {
    hide Inv, Run, Matched, OutcomeBegins, LedgerKey, L.HasId, L.HasKey, Evolves, GateGrows;
    var first := OutcomeBegins(i, d, true, 0);
    OutcomeReads(s, i, d, true, 0, m, opening);
    ReachableFrom(s, first, opening);
    OutcomeReads(Run(s, first), j, d, false, fee, n, opening);
    RunSplit(s, first, OutcomeBegins(j, d, false, fee));
  }

  lemma KeyIsSource(s: State, source: LedgerSource, opening: map<string, int>)
    requires Inv(s, opening) && !HasSource(s.db.books.txns, source)
    ensures !L.HasKey(s.db.books.txns, LedgerKey(source))
  {
    hide WorkerOk, RowsOk;
    if L.HasKey(s.db.books.txns, LedgerKey(source)) {
      KeyMeansSource(s.db, s.gate, opening, source);
    }
  }

  lemma DisputePositive(s: State, d: string, opening: map<string, int>)
    requires Inv(s, opening) && d in s.db.disputes
    ensures s.db.disputes[d].amount > 0
  {
    hide WorkerOk;
    assert DisputeOk(s.db, s.db.disputes[d]);
  }
}
