/**
 * When a credits key is used at most once.
 *
 * The credits table has no unique constraint on its keys: a credits call looks its key up
 * first and only then locks the balance row, so two overlapping calls with one key can both
 * pass the lookup. A key is written at most once in any run in which no two calls are past
 * the lookup with it together. What ensures that is something the callers hold around the
 * whole credits call; this file says which resource that is for each caller. The converse,
 * that two calls past the lookup can both be written, is in Overlaps.
 */
module Once {
  import opened Prelude
  import opened Keys
  import opened Engine
  import opened Invariant
  import opened Machine
  import G = Gateways
  import L = Ledger
  import C = Credits

  /** What a call holds throughout its credits call. */
  function Guard(w: Worker): Option<Resource> {
    match w.job
    case Process(id) => if w.snap.kind == PAYMENT then Some(RefundRow(id)) else None
    case Chargeback(_, charge, _, _) => Some(DisputeId(DisputeKey(charge)))
    case Approved(e, _, _, _, _) => Some(WebhookId(e))
    case Refunded(e, _, _, _) => Some(WebhookId(e))
    case Confirm(h, _, _, _) => Some(WebhookId(h))
    case _ => None
  }

  lemma GuardHeld(db: Db, gate: Gate, locks: map<Resource, nat>, i: nat, w: Worker)
    requires WorkerOk(db, gate, locks, i, w) && InCredit(w.pc) && Guard(w).Some?
    ensures Holds(locks, Guard(w).value, i)
  {
    hide LedgerKey, CreditKey, DisputeKey, AbsentOk, PostOk, CallOk;
  }

  /** Past the key lookup, before the log row is committed. */
  predicate PastLookup(w: Worker) {
    w.pc == RowLock || w.pc == Settle
  }

  /** Every call about to use the key holds r. */
  ghost predicate Policed(s: State, key: string, r: Resource) {
    forall i :: i in s.workers && InCredit(s.workers[i].pc) && Key(s.workers[i]) == key ==> Guard(s.workers[i]) == Some(r)
  }

  /** No two calls are past the lookup of one key together. */
  ghost predicate Single(s: State, key: string) {
    forall i, j :: Past(s, i, key) && Past(s, j, key) ==> i == j
  }

  predicate Past(s: State, i: nat, key: string) {
    i in s.workers && PastLookup(s.workers[i]) && Key(s.workers[i]) == key
  }

  /** A resource all users of a key hold lets only one of them past the lookup. */
  lemma PolicedIsSingle(s: State, key: string, r: Resource, opening: map<string, int>)
    requires Inv(s, opening) && Policed(s, key, r)
    ensures Single(s, key)
  {
    hide RowsOk, WorkerOk, Guard, Key;
    forall i, j | Past(s, i, key) && Past(s, j, key) ensures i == j
    {
      GuardHeld(s.db, s.gate, s.locks, i, s.workers[i]);
      GuardHeld(s.db, s.gate, s.locks, j, s.workers[j]);
    }
  }

  ghost predicate Clean(s: State, key: string) {
    && C.Count(s.db.purse.log, key) <= 1
    && (forall i :: i in s.workers && PastLookup(s.workers[i]) && Key(s.workers[i]) == key ==> C.Count(s.db.purse.log, key) == 0)
  }

  /** A step that neither writes the log nor takes a call past the lookup. */
  ghost predicate LogUntouched(s: State, s': State, i: nat) {
    && s'.db.purse.log == s.db.purse.log
    && i in s'.workers && s'.workers == s.workers[i := s'.workers[i]]
    && (PastLookup(s'.workers[i]) ==> i in s.workers && PastLookup(s.workers[i]) && Key(s'.workers[i]) == Key(s.workers[i]))
  }

  lemma UntouchedClean(s: State, s': State, i: nat, key: string)
    requires Clean(s, key) && LogUntouched(s, s', i)
    ensures Clean(s', key)
  {
    hide Key, C.Count;
  }

  // ----- Which steps touch the log -----

  lemma AfterCreditUntouched(s: State, i: nat, w: Worker, ok: bool)
    ensures var s' := AfterCredit(s, i, w, ok);
            s'.db == s.db && i in s'.workers && s'.workers == s.workers[i := s'.workers[i]] && !PastLookup(s'.workers[i])
  {
    hide Released;
  }

  lemma StartUntouched(s: State, i: nat)
    requires i in s.workers && s.workers[i].pc == Start
    ensures LogUntouched(s, DoStart(s, i, s.workers[i]), i)
  {
    hide Key, Released, Given;
  }

  predicate BeforeCredit(pc: Pc) {
    pc == CallGateway || pc == Dedup || pc == Find || pc == Insert || pc == Check || pc == Post || pc == Link
  }

  lemma BeforeCreditUntouched(s: State, i: nat, mint: string)
    requires i in s.workers && BeforeCredit(s.workers[i].pc)
    ensures LogUntouched(s, Advance(s, i, mint), i)
  {
    hide Key, Released, LedgerKey, CreditKey, DisputeKey, Given, HasDispute, L.HasKey, L.HasId, G.AfterRefund, G.Answer,
         Lines, Source, LineAmount;
  }

  lemma AfterwardsUntouched(s: State, i: nat, mint: string)
    requires i in s.workers
    requires var pc := s.workers[i].pc; !BeforeCredit(pc) && pc != Start && pc != KeyCheck && pc != RowLock && pc != Settle && pc != Commit
    ensures LogUntouched(s, Advance(s, i, mint), i)
  {
    hide Key, Released, LedgerKey, CreditKey, HasCharge, RecordOf, RecordsCharge;
  }

  lemma CommitUntouched(s: State, i: nat)
    requires i in s.workers && s.workers[i].pc == Commit
    ensures LogUntouched(s, DoCommit(s, i, s.workers[i]), i)
  {
    hide Key, Released, Booked;
  }

  lemma RowLockUntouched(s: State, i: nat)
    requires i in s.workers && s.workers[i].pc == RowLock
    ensures LogUntouched(s, DoRowLock(s, i, s.workers[i]), i)
  {
    hide AfterCredit, CreditKey;
    AfterCreditUntouched(s, i, s.workers[i], false);
  }

  lemma ThrowUntouched(s: State, i: nat)
    requires i in s.workers
    ensures LogUntouched(s, Throw(s, i), i)
  {
    hide AfterCredit, CreditKey, Key, Released, Credit;
    var w := s.workers[i];
    AfterCreditUntouched(s, i, w, false);
    AfterCreditUntouched(s.(locks := Drop(s.locks, CreditsRow(Credit(w).user))), i, w, false);
  }

  lemma KeyCheckClean(s: State, i: nat, key: string)
    requires i in s.workers && s.workers[i].pc == KeyCheck && Clean(s, key)
    ensures Clean(DoKeyCheck(s, i, s.workers[i]), key)
  {
    hide AfterCredit, CreditKey, C.Count;
    var w := s.workers[i];
    var s' := DoKeyCheck(s, i, w);
    if Credit(w).amount <= 0 {
      AfterCreditUntouched(s, i, w, false);
    } else if C.HasKey(s.db.purse.log, Key(w)) {
      AfterCreditUntouched(s, i, w, true);
    } else {
      C.CountZero(s.db.purse.log, Key(w));
      assert Key(s'.workers[i]) == Key(w);
    }
  }

  lemma SettleShape(s: State, i: nat)
    requires i in s.workers && s.workers[i].pc == Settle
    ensures var s' := DoSettle(s, i, s.workers[i]);
            && s'.db.purse.log == s.db.purse.log + [CreditRow(s.workers[i])]
            && i in s'.workers && s'.workers == s.workers[i := s'.workers[i]] && !PastLookup(s'.workers[i])
  {
    hide AfterCredit, CreditRow, Credit;
    var w := s.workers[i];
    var c := Credit(w);
    var row := CreditRow(w);
    var db := s.db.(purse := C.Purse(s.db.purse.balances[c.user := w.bal + row.amount], s.db.purse.log + [row]));
    AfterCreditUntouched(s.(db := db, locks := Drop(s.locks, CreditsRow(c.user))), i, w, true);
  }

  lemma RowKey(w: Worker)
    ensures CreditRow(w).key == Some(Key(w))
  {
    hide CreditKey, Credit;
  }

  /** The one step that writes a key keeps it clean exactly when no other call is past the lookup. */
  lemma SettleClean(s: State, i: nat, key: string)
    requires i in s.workers && s.workers[i].pc == Settle && Clean(s, key) && Key(s.workers[i]) == key
    ensures Clean(DoSettle(s, i, s.workers[i]), key)
       <==> forall j :: Past(s, j, key) ==> j == i
  {
    hide DoSettle, C.Count, Key;
    var w := s.workers[i];
    var s' := DoSettle(s, i, w);
    SettleShape(s, i);
    C.CountAppend(s.db.purse.log, CreditRow(w), key);
    RowKey(w);
    assert C.Count(s'.db.purse.log, key) == 1;
    if j :| Past(s, j, key) && j != i {
      assert s'.workers[j] == s.workers[j];
    } else {
      assert forall k :: k in s'.workers && PastLookup(s'.workers[k]) && Key(s'.workers[k]) == key ==> Past(s, k, key) && k != i;
    }
  }

  lemma SettleOther(s: State, i: nat, key: string)
    requires i in s.workers && s.workers[i].pc == Settle && Clean(s, key) && Key(s.workers[i]) != key
    ensures Clean(DoSettle(s, i, s.workers[i]), key)
  {
    hide DoSettle, C.Count, CreditKey, Credit;
    SettleShape(s, i);
    C.CountAppend(s.db.purse.log, CreditRow(s.workers[i]), key);
  }

  lemma DoClean(s: State, a: Action, key: string)
    requires Clean(s, key) && Single(s, key)
    ensures Clean(Do(s, a), key)
  {
    hide Single, Throw, Accepted, C.Count, Key, Released;
    match a
    case Create(_, _) =>
    case ReviewNow(_, _) =>
    case RegisterCharge(_, _, _) =>
    case Spawn(i, job) =>
      if i !in s.workers { UntouchedClean(s, Do(s, a), i, key); }
    case Step(i, mint) =>
      if i in s.workers { AdvanceClean(s, i, mint, key); }
    case LoseAnswer(i) =>
      if i in s.workers { UntouchedClean(s, Do(s, a), i, key); }
    case FailCall(i) =>
      if i in s.workers {
        ThrowUntouched(s, i);
        UntouchedClean(s, Throw(s, i), i, key);
      }
    case Crash(i) =>
      if i in s.workers { UntouchedClean(s, Do(s, a), i, key); }
  }

  lemma AdvanceClean(s: State, i: nat, mint: string, key: string)
    requires i in s.workers && Clean(s, key) && Single(s, key)
    ensures Clean(Advance(s, i, mint), key)
  {
    hide Clean, LogUntouched, DoStart, DoKeyCheck, DoRowLock, DoSettle, DoCommit, DoCallGateway, DoDedup, DoFind, DoInsert,
         DoCheck, DoPost, DoLink, DoRecord, DoResolve, DoFinal, DoCatch, DoWrite;
    var s' := Advance(s, i, mint);
    match s.workers[i].pc
    case Start => StartUntouched(s, i); UntouchedClean(s, s', i, key);
    case KeyCheck => KeyCheckClean(s, i, key);
    case RowLock => RowLockUntouched(s, i); UntouchedClean(s, s', i, key);
    case Settle => SettleAlone(s, i, key);
    case Commit => CommitUntouched(s, i); UntouchedClean(s, s', i, key);
    case _ =>
      if BeforeCredit(s.workers[i].pc) { BeforeCreditUntouched(s, i, mint); } else { AfterwardsUntouched(s, i, mint); }
      UntouchedClean(s, s', i, key);
  }

  lemma SettleAlone(s: State, i: nat, key: string)
    requires i in s.workers && s.workers[i].pc == Settle && Clean(s, key) && Single(s, key)
    ensures Clean(DoSettle(s, i, s.workers[i]), key)
  {
    hide DoSettle, Clean, Key;
    if Key(s.workers[i]) == key {
      assert Past(s, i, key);
      SettleClean(s, i, key);
    } else {
      SettleOther(s, i, key);
    }
  }

  /**
   * In any run in which no two calls are past the lookup of a key together, the key is
   * written at most once, whatever fails, dies or is started again.
   */
  lemma {:induction false} SingleKeyIsUsedOnce(s: State, acts: seq<Action>, key: string, opening: map<string, int>)
    requires Initial(s, opening)
    requires forall n :: 0 <= n <= |acts| ==> Single(Run(s, acts[..n]), key)
    ensures Clean(Run(s, acts), key)
    ensures C.Count(Run(s, acts).db.purse.log, key) <= 1
  {
    hide Single, Do, Key;
    if acts != [] {
      var n := |acts| - 1;
      var mid := acts[..n];
      forall m | 0 <= m <= |mid| ensures Single(Run(s, mid[..m]), key) {
        assert mid[..m] == acts[..m];
      }
      SingleKeyIsUsedOnce(s, mid, key, opening);
      assert Single(Run(s, mid), key);
      DoClean(Run(s, mid), acts[n], key);
    }
  }

  /** So it is enough that every call about to use the key holds one common resource around its credits call. */
  lemma PolicedKeyIsUsedOnce(s: State, acts: seq<Action>, key: string, r: Resource, opening: map<string, int>)
    requires Initial(s, opening)
    requires forall n :: 0 <= n <= |acts| ==> Policed(Run(s, acts[..n]), key, r)
    ensures C.Count(Run(s, acts).db.purse.log, key) <= 1
  {
    hide Policed, Single, Run, Inv, Key, Initial;
    forall n | 0 <= n <= |acts| ensures Single(Run(s, acts[..n]), key) {
      Reachable(s, acts[..n], opening);
      PolicedIsSingle(Run(s, acts[..n]), key, r, opening);
    }
    SingleKeyIsUsedOnce(s, acts, key, opening);
  }
}
