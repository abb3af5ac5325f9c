/** Every step of the engine keeps the invariant. */
module Steps {
  import opened Prelude
  import opened Keys
  import opened Engine
  import opened Invariant
  import G = Gateways
  import L = Ledger
  import C = Credits

  ghost predicate Good(s: State, s': State, i: nat, opening: map<string, int>) {
    Inv(s', opening) && (s' == s || StepBy(s, s', i))
  }

  // ----- Steps that leave the committed rows alone -----

  /** A step that only moves call i on, and takes or gives back what call i holds. */
  ghost predicate Local(s: State, s': State, i: nat) {
    && s'.db == s.db && s'.gate == s.gate && s'.required == s.required
    && i in s'.workers && s'.workers == s.workers[i := s'.workers[i]]
    && OthersHold(s.locks, s'.locks, i)
  }

  lemma LocalGood(s: State, s': State, i: nat, opening: map<string, int>)
    requires Inv(s, opening) && Local(s, s', i)
    requires WorkerOk(s.db, s.gate, s'.locks, i, s'.workers[i])
    ensures Good(s, s', i, opening)
  {
    hide RowsOk, WorkerOk, Evolves, Guarded, GateGrows;
    StillOutside(s.db, s.gate, s.locks, i);
    StepKeepsInv(s, s', i, opening);
  }

  lemma ReleasedHold(locks: map<Resource, nat>, i: nat)
    ensures OthersHold(locks, Released(locks, i), i)
    ensures OthersHold(locks, locks, i)
  {
  }

  lemma TakenHold(locks: map<Resource, nat>, r: Resource, i: nat)
    requires r in locks ==> locks[r] == i
    ensures OthersHold(locks, locks[r := i], i)
  {
  }

  lemma TakenTwo(locks: map<Resource, nat>, r: Resource, q: Resource, i: nat)
    requires (r in locks ==> locks[r] == i) && q !in locks
    ensures OthersHold(locks, locks[r := i][q := i], i)
  {
  }

  lemma Stay(s: State, i: nat, opening: map<string, int>)
    requires Inv(s, opening)
    ensures Good(s, s, i, opening)
  {
    hide Inv;
  }

  lemma OverWorker(db: Db, gate: Gate, locks: map<Resource, nat>, i: nat, w: Worker)
    ensures WorkerOk(db, gate, locks, i, w.(pc := Done, post := None, record := None))
  {
    hide LedgerKey, CreditKey, DisputeKey, Credit, Source, Lines, RecordOf;
  }

  lemma FinishGood(s: State, i: nat, opening: map<string, int>)
    requires Inv(s, opening) && i in s.workers
    ensures Good(s, Finish(s, i, s.workers[i]), i, opening)
  {
    hide RowsOk, WorkerOk, OthersHold, Good;
    var w := s.workers[i];
    ReleasedHold(s.locks, i);
    OverWorker(s.db, s.gate, Released(s.locks, i), i, w);
    LocalGood(s, Finish(s, i, w), i, opening);
  }

  lemma CaughtWorker(db: Db, gate: Gate, locks: map<Resource, nat>, i: nat, w: Worker)
    requires w.job.Process? && ProcessOk(db, gate, w) && w.pc != Start && w.pc != Done
    ensures WorkerOk(db, gate, locks, i, w.(pc := Catch, post := None, record := None))
  {
  }

  lemma ProcessFacts(db: Db, gate: Gate, locks: map<Resource, nat>, i: nat, w: Worker)
    requires WorkerOk(db, gate, locks, i, w) && w.job.Process?
    ensures ProcessOk(db, gate, w)
  {
  }

  lemma FailGood(s: State, i: nat, opening: map<string, int>)
    requires Inv(s, opening) && i in s.workers && s.workers[i].pc != Start && s.workers[i].pc != Done
    ensures Good(s, Fail(s, i, s.workers[i]), i, opening)
  {
    hide RowsOk, OthersHold, Good, HoldsOk, AbsentOk, PostOk, ProcessOk, Shape, CallOk, WorkerOk;
    var w := s.workers[i];
    ReleasedHold(s.locks, i);
    if w.job.Process? {
      ProcessFacts(s.db, s.gate, s.locks, i, w);
      CaughtWorker(s.db, s.gate, Released(s.locks, i), i, w);
    } else {
      OverWorker(s.db, s.gate, Released(s.locks, i), i, w);
    }
    LocalGood(s, Fail(s, i, w), i, opening);
  }

  /** A call with no open transaction holds nothing and keeps nothing out. */
  lemma IdleWorker(db: Db, locks: map<Resource, nat>, i: nat, w: Worker)
    requires w.post.None? && w.record.None? && !Delivering(w) && !Opening(w) && !RowUpdated(w) && w.pc != Settle && w.pc != Commit
    ensures HoldsOk(locks, i, w) && AbsentOk(db, w)
  {
    hide LedgerKey, CreditKey, DisputeKey, Credit, Source, Lines, RecordOf, Holds, Delivering, Opening, RowUpdated;
  }

  lemma BareStart(db: Db, gate: Gate, locks: map<Resource, nat>, i: nat, w: Worker)
    requires WorkerOk(db, gate, locks, i, w) && w.pc == Start
    ensures w.post.None? && w.record.None? && (w.job.Chargeback? ==> !w.linked)
  {
    hide Shape, HoldsOk, AbsentOk, LedgerKey, CreditKey, DisputeKey, Credit, Source, Lines, RecordOf, ProcessOk;
  }

  lemma StartProcess(db: Db, gate: Gate, locks: map<Resource, nat>, i: nat, w: Worker, w': Worker)
    requires w.job.Process? && w.post.None? && w.record.None?
    requires w.job.refund in db.refunds && RefundOk(db, gate, w.job.refund)
    requires var r := db.refunds[w.job.refund];
             w' == w.(snap := r, pc :=
                if r.kind == CREDITS then KeyCheck
                else if r.paymentRefundId.Some? then Final
                else if r.gateway.None? || !Given(r.charge) then Catch
                else CallGateway)
    ensures WorkerOk(db, gate, locks, i, w')
  {
    hide LedgerKey, CreditKey, DisputeKey, Credit, Source, Lines, RecordOf, HoldsOk, AbsentOk;
    IdleWorker(db, locks, i, w');
  }

  lemma StartOther(db: Db, gate: Gate, locks: map<Resource, nat>, i: nat, w: Worker, w': Worker)
    requires !w.job.Process? && w.post.None? && w.record.None? && (w.job.Chargeback? ==> !w.linked)
    requires if w.job.Review? then w' == w.(pc := Write) && w.job.refund in db.refunds
             else if w.job.Evidence? then w' == w.(pc := Write) && w.job.dispute in db.disputes
             else if w.job.Outcome? then
               w.job.dispute in db.disputes && w' == w.(disp := w.job.dispute, dis := db.disputes[w.job.dispute], pc := Check)
             else w' == w.(pc := Dedup)
    ensures WorkerOk(db, gate, locks, i, w')
  {
    hide LedgerKey, CreditKey, DisputeKey, Credit, Source, Lines, RecordOf, HoldsOk, AbsentOk;
    IdleWorker(db, locks, i, w');
  }

  lemma StartWorker(s: State, i: nat, s': State)
    requires i in s.workers && s.workers[i].pc == Start && s' == DoStart(s, i, s.workers[i])
    requires WorkerOk(s.db, s.gate, s.locks, i, s.workers[i])
    requires s.workers[i].job.Process? && s.workers[i].job.refund in s.db.refunds ==> RefundOk(s.db, s.gate, s.workers[i].job.refund)
    requires s' != Finish(s, i, s.workers[i])
    ensures s'.db == s.db && s'.gate == s.gate && s'.required == s.required && s'.locks == s.locks
    ensures i in s'.workers && s'.workers == s.workers[i := s'.workers[i]]
    ensures WorkerOk(s.db, s.gate, s.locks, i, s'.workers[i])
  {
    hide WorkerOk, RefundOk, Finish;
    var w := s.workers[i];
    BareStart(s.db, s.gate, s.locks, i, w);
    if w.job.Process? {
      StartProcess(s.db, s.gate, s.locks, i, w, s'.workers[i]);
    } else {
      StartOther(s.db, s.gate, s.locks, i, w, s'.workers[i]);
    }
  }

  lemma StartGood(s: State, i: nat, opening: map<string, int>)
    requires Inv(s, opening) && i in s.workers && s.workers[i].pc == Start
    ensures Good(s, DoStart(s, i, s.workers[i]), i, opening)
  {
    var w := s.workers[i];
    var s' := DoStart(s, i, w);
    hide WorkerOk, OthersHold, Good, DoStart, Finish, TxnOk, CreditOk, GateOk, RefundOk, SettledOk, DisputeOk, L.Sound,
         C.Sound;
    if s' == Finish(s, i, w) {
      FinishGood(s, i, opening);
    } else {
      StartWorker(s, i, s');
      ReleasedHold(s.locks, i);
      LocalGood(s, s', i, opening);
    }
  }

  /** Before its ledger and record steps a call has nothing uncommitted to post. */
  lemma BareEarly(db: Db, gate: Gate, locks: map<Resource, nat>, i: nat, w: Worker)
    requires WorkerOk(db, gate, locks, i, w)
    requires w.pc == Dedup || w.pc == Find || w.pc == Insert || w.pc == Check || w.pc == Post || w.pc == CallGateway
    ensures w.post.None? && w.record.None? && (w.job.Chargeback? ==> !w.linked)
  {
    hide HoldsOk, AbsentOk, LedgerKey, CreditKey, DisputeKey, Credit, Source, Lines, RecordOf, ProcessOk;
  }

  lemma DedupWorker(db: Db, gate: Gate, locks: map<Resource, nat>, i: nat, w: Worker, w': Worker)
    requires w.post.None? && w.record.None? && (w.job.Chargeback? ==> !w.linked) && WebhookOf(w.job).Some?
    requires Holds(locks, WebhookId(WebhookOf(w.job).value), i) && WebhookOf(w.job).value !in db.webhooks
    requires w' == w.(pc :=
      if w.job.Chargeback? then Find
      else if w.job.Other? then Commit
      else if w.job.Approved? && w.job.credits.None? then Record
      else KeyCheck)
    ensures WorkerOk(db, gate, locks, i, w')
  {
    hide LedgerKey, CreditKey, DisputeKey, Credit, Source, Lines, RecordOf, Holds;
  }

  lemma DedupGood(s: State, i: nat, opening: map<string, int>)
    requires Inv(s, opening) && i in s.workers && s.workers[i].pc == Dedup
    ensures Good(s, DoDedup(s, i, s.workers[i]), i, opening)
  {
    hide RowsOk, WorkerOk, OthersHold, Good, Finish, WebhookOf;
    var w := s.workers[i];
    var s' := DoDedup(s, i, w);
    if s' == Finish(s, i, w) {
      FinishGood(s, i, opening);
    } else if s' == s {
      Stay(s, i, opening);
    } else {
      BareEarly(s.db, s.gate, s.locks, i, w);
      TakenHold(s.locks, WebhookId(WebhookOf(w.job).value), i);
      DedupWorker(s.db, s.gate, s'.locks, i, w, s'.workers[i]);
      LocalGood(s, s', i, opening);
    }
  }

  lemma FindWorker(db: Db, gate: Gate, locks: map<Resource, nat>, i: nat, w: Worker, w': Worker)
    requires WorkerOk(db, gate, locks, i, w) && w.pc == Find && w.job.Chargeback? && w.post.None? && w.record.None? && !w.linked
    requires w'.job == w.job && (w'.pc == Insert || w'.pc == Commit) && w'.linked == w.linked && w'.post == w.post && w'.record == w.record
    ensures WorkerOk(db, gate, locks, i, w')
  {
    hide LedgerKey, CreditKey, DisputeKey, Credit, Source, Lines, RecordOf, Holds;
  }

  lemma FoundIsReversed(db: Db, gate: Gate, opening: map<string, int>, d: string)
    requires RowsOk(db, gate, opening) && d in db.disputes
    ensures db.disputes[d].reversal.Some?
  {
    assert DisputeOk(db, db.disputes[d]);
  }

  lemma FindGood(s: State, i: nat, opening: map<string, int>)
    requires Inv(s, opening) && i in s.workers && s.workers[i].pc == Find
    ensures Good(s, DoFind(s, i, s.workers[i]), i, opening)
  {
    hide RowsOk, WorkerOk, OthersHold, Good, DisputeKey, HasDispute;
    var w := s.workers[i];
    var s' := DoFind(s, i, w);
    if s' == s {
      Stay(s, i, opening);
    } else {
      BareEarly(s.db, s.gate, s.locks, i, w);
      if HasDispute(s.db.disputes, DisputeKey(w.job.charge)) {
        FoundIsReversed(s.db, s.gate, opening, FindDispute(s.db.disputes, DisputeKey(w.job.charge)));
      }
      ReleasedHold(s.locks, i);
      FindWorker(s.db, s.gate, s.locks, i, w, s'.workers[i]);
      LocalGood(s, s', i, opening);
    }
  }

  lemma InsertWorker(db: Db, gate: Gate, locks: map<Resource, nat>, locks': map<Resource, nat>, i: nat, w: Worker,
      w': Worker, mint: string)
    requires WorkerOk(db, gate, locks, i, w) && w.pc == Insert && w.job.Chargeback? && w.post.None? && w.record.None? && !w.linked
    requires mint !in db.disputes && !HasDispute(db.disputes, DisputeKey(w.job.charge))
    requires locks' == locks[DisputeId(DisputeKey(w.job.charge)) := i][DisputeRow(mint) := i]
    requires w' == w.(made := true, disp := mint, pc := Check,
                      dis := Dispute(w.job.user, DisputeKey(w.job.charge), w.job.charge, w.job.amount, OPEN, None))
    ensures WorkerOk(db, gate, locks', i, w')
  {
    hide LedgerKey, CreditKey, DisputeKey, Credit, Source, Lines, RecordOf;
  }

  lemma InsertGood(s: State, i: nat, mint: string, opening: map<string, int>)
    requires Inv(s, opening) && i in s.workers && s.workers[i].pc == Insert
    ensures Good(s, DoInsert(s, i, s.workers[i], mint), i, opening)
  {
    hide RowsOk, WorkerOk, OthersHold, Good, Finish, DisputeKey, HasDispute;
    var w := s.workers[i];
    var s' := DoInsert(s, i, w, mint);
    if s' == Finish(s, i, w) {
      FinishGood(s, i, opening);
    } else if s' == s {
      Stay(s, i, opening);
    } else {
      BareEarly(s.db, s.gate, s.locks, i, w);
      var gid := DisputeKey(w.job.charge);
      TakenTwo(s.locks, DisputeId(gid), DisputeRow(mint), i);
      InsertWorker(s.db, s.gate, s.locks, s'.locks, i, w, s'.workers[i], mint);
      LocalGood(s, s', i, opening);
    }
  }

  lemma NoDisputeOn(db: Db, gate: Gate, opening: map<string, int>, charge: string)
    requires RowsOk(db, gate, opening)
    ensures HasDisputeOn(db.disputes, charge) ==> HasDispute(db.disputes, DisputeKey(charge))
  {
    if HasDisputeOn(db.disputes, charge) {
      var d :| d in db.disputes && db.disputes[d].charge == charge;
      assert DisputeOk(db, db.disputes[d]);
    }
  }

  /** A chargeback that inserted its dispute finds no earlier reversal. */
  lemma OpeningHasNoReversal(db: Db, gate: Gate, opening: map<string, int>, w: Worker)
    requires RowsOk(db, gate, opening) && w.job.Chargeback?
    requires !HasDispute(db.disputes, DisputeKey(w.job.charge))
    ensures !HasSource(db.books.txns, ReversalOf(w.job.charge))
    ensures !L.HasKey(db.books.txns, LedgerKey(ReversalOf(w.job.charge)))
  {
    forall k | 0 <= k < |db.books.txns|
      ensures db.books.txns[k].source != Some(ReversalOf(w.job.charge))
      ensures db.books.txns[k].key != Some(LedgerKey(ReversalOf(w.job.charge)))
    {
      var t := db.books.txns[k];
      assert TxnOk(db, t);
      LedgerKeysSeparate(t.source.value, ReversalOf(w.job.charge));
      if t.source.value == ReversalOf(w.job.charge) {
        NoDisputeOn(db, gate, opening, w.job.charge);
        assert false;
      }
    }
  }

  lemma KeyMeansSource(db: Db, gate: Gate, opening: map<string, int>, source: LedgerSource)
    requires RowsOk(db, gate, opening)
    ensures L.HasKey(db.books.txns, LedgerKey(source)) <==> HasSource(db.books.txns, source)
  {
    forall k | 0 <= k < |db.books.txns|
      ensures db.books.txns[k].key == Some(LedgerKey(source)) <==> db.books.txns[k].source == Some(source)
    {
      var t := db.books.txns[k];
      assert TxnOk(db, t);
      LedgerKeysSeparate(t.source.value, source);
    }
  }

  lemma CheckWorker(db: Db, gate: Gate, locks: map<Resource, nat>, i: nat, w: Worker, w': Worker)
    requires WorkerOk(db, gate, locks, i, w) && w.pc == Check && w.post.None? && w.record.None?
    requires PostsLedger(w.job)
    requires w.job.Chargeback? ==> w' == w.(pc := Post)
    requires w' == w.(pc := Post) || (HasSource(db.books.txns, Source(w)) && w' == w.(txnId := w'.txnId, pc := AfterPost(w.job)))
    requires w' != w.(pc := Post) && w.job.Outcome? ==> w'.pc == AfterPost(w.job)
    ensures WorkerOk(db, gate, locks, i, w')
  {
    hide LedgerKey, CreditKey, DisputeKey, Lines, RecordOf, Holds, HasSource;
  }

  lemma CheckPosts(db: Db, gate: Gate, locks: map<Resource, nat>, i: nat, w: Worker)
    requires WorkerOk(db, gate, locks, i, w) && (w.pc == Check || w.pc == Post)
    ensures PostsLedger(w.job)
    ensures w.job.Chargeback? ==> !HasDispute(db.disputes, DisputeKey(w.job.charge))
  {
    hide LedgerKey, CreditKey, DisputeKey, Lines, RecordOf, Holds, HasSource;
  }

  lemma CheckGood(s: State, i: nat, opening: map<string, int>)
    requires Inv(s, opening) && i in s.workers && s.workers[i].pc == Check
    ensures Good(s, DoCheck(s, i, s.workers[i]), i, opening)
  {
    hide RowsOk, WorkerOk, OthersHold, Good, LedgerKey, HasDispute, HasSource, L.HasKey, DisputeKey;
    var w := s.workers[i];
    var s' := DoCheck(s, i, w);
    KeyMeansSource(s.db, s.gate, opening, Source(w));
    BareEarly(s.db, s.gate, s.locks, i, w);
    CheckPosts(s.db, s.gate, s.locks, i, w);
    if w.job.Chargeback? {
      OpeningHasNoReversal(s.db, s.gate, opening, w);
    }
    ReleasedHold(s.locks, i);
    CheckWorker(s.db, s.gate, s.locks, i, w, s'.workers[i]);
    LocalGood(s, s', i, opening);
  }

  lemma PostWorker(db: Db, gate: Gate, locks: map<Resource, nat>, locks': map<Resource, nat>, i: nat, w: Worker,
      w': Worker, mint: string)
    requires WorkerOk(db, gate, locks, i, w) && w.pc == Post && w.post.None? && w.record.None? && PostsLedger(w.job)
    requires !L.HasKey(db.books.txns, LedgerKey(Source(w))) && !L.HasId(db.books.txns, mint) && LineAmount(w) > 0
    requires locks' == locks[LedgerId(LedgerKey(Source(w))) := i][TxnRow(mint) := i]
    requires w' == w.(txnId := mint, pc := AfterPost(w.job),
                      post := Some(L.Txn(mint, Some(LedgerKey(Source(w))), Some(Source(w)), Lines(w))))
    ensures WorkerOk(db, gate, locks', i, w')
  {
    hide LedgerKey, CreditKey, DisputeKey, L.HasKey, L.HasId, HasDispute, HasSource, GatewayPaid, RecordOf, WebhookOf;
    assert Lines(w') == Lines(w) && Source(w') == Source(w);
  }

  lemma PostGood(s: State, i: nat, mint: string, opening: map<string, int>)
    requires Inv(s, opening) && i in s.workers && s.workers[i].pc == Post
    ensures Good(s, DoPost(s, i, s.workers[i], mint), i, opening)
  {
    hide RowsOk, WorkerOk, OthersHold, Good, LedgerKey, HasDispute, L.HasId, L.HasKey, Lines, Source, Fail, PostsLedger,
         LineAmount, DisputeKey;
    var w := s.workers[i];
    var s' := DoPost(s, i, w, mint);
    if s' == Fail(s, i, w) {
      FailGood(s, i, opening);
    } else if s' == s {
      Stay(s, i, opening);
    } else {
      BareEarly(s.db, s.gate, s.locks, i, w);
      CheckPosts(s.db, s.gate, s.locks, i, w);
      TakenTwo(s.locks, LedgerId(LedgerKey(Source(w))), TxnRow(mint), i);
      PostWorker(s.db, s.gate, s.locks, s'.locks, i, w, s'.workers[i], mint);
      LocalGood(s, s', i, opening);
    }
  }

  lemma LinkWorker(db: Db, gate: Gate, locks: map<Resource, nat>, locks': map<Resource, nat>, i: nat, w: Worker)
    requires WorkerOk(db, gate, locks, i, w) && w.pc == Link
    requires locks' == locks[(if w.job.Process? then RefundRow(w.job.refund) else DisputeRow(w.disp)) := i]
    ensures WorkerOk(db, gate, locks', i, w.(linked := true, pc := KeyCheck))
  {
    hide LedgerKey, CreditKey, DisputeKey, L.HasKey, L.HasId, HasDispute, HasSource, GatewayPaid, RecordOf, WebhookOf,
         HasCharge;
  }

  lemma LinkGood(s: State, i: nat, opening: map<string, int>)
    requires Inv(s, opening) && i in s.workers && s.workers[i].pc == Link
    ensures Good(s, DoLink(s, i, s.workers[i]), i, opening)
  {
    hide RowsOk, WorkerOk, OthersHold, Good;
    var w := s.workers[i];
    var s' := DoLink(s, i, w);
    if s' == s {
      Stay(s, i, opening);
    } else {
      TakenHold(s.locks, if w.job.Process? then RefundRow(w.job.refund) else DisputeRow(w.disp), i);
      LinkWorker(s.db, s.gate, s.locks, s'.locks, i, w);
      LocalGood(s, s', i, opening);
    }
  }

  // ----- The credits call -----

  /** What a call needs to know to go on after its credits call succeeded. */
  ghost predicate CreditKnown(db: Db, w: Worker) {
    && (w.job.Process? && w.snap.kind == CREDITS ==> Wrote(db.purse.log, RefundGrant(w.job.refund), w.snap.user, w.snap.amount))
    && (w.job.Confirm? ==> WroteAny(db.purse.log, SolanaGrant(w.job.hash)))
    && (w.job.Approved? ==> WroteAny(db.purse.log, ChargeGrant(w.job.charge)))
  }

  /** A key already in the log was written for the same source. */
  lemma KeyMeansCredit(db: Db, gate: Gate, opening: map<string, int>, w: Worker)
    requires RowsOk(db, gate, opening) && CallOk(db, gate, w) && w.pc == KeyCheck
    requires C.HasKey(db.purse.log, Key(w))
    ensures CreditKnown(db, w)
  {
    var k :| 0 <= k < |db.purse.log| && db.purse.log[k].key == Some(Key(w));
    var t := db.purse.log[k];
    assert CreditOk(db, gate, t);
    CreditKeysSeparate(t.source.value, Credit(w).source);
  }

  lemma BackToKeyCheck(db: Db, gate: Gate, locks: map<Resource, nat>, i: nat, w: Worker)
    requires WorkerOk(db, gate, locks, i, w) && InCredit(w.pc)
    ensures WorkerOk(db, gate, locks, i, w.(pc := KeyCheck))
  {
    hide LedgerKey, CreditKey, DisputeKey, L.HasKey, L.HasId, HasDispute, HasSource, GatewayPaid, HasCharge, Holds;
  }

  lemma RowGivenBack(db: Db, gate: Gate, locks: map<Resource, nat>, i: nat, w: Worker, user: string)
    requires WorkerOk(db, gate, locks, i, w) && w.pc == KeyCheck
    ensures WorkerOk(db, gate, Drop(locks, CreditsRow(user)), i, w)
    ensures Holds(locks, CreditsRow(user), i) ==> OthersHold(locks, Drop(locks, CreditsRow(user)), i)
  {
    hide LedgerKey, CreditKey, DisputeKey, L.HasKey, L.HasId, HasDispute, HasSource, GatewayPaid, HasCharge, PostOk,
         CallOk, AbsentOk, Shape;
  }

  lemma PurseChanged(db: Db, db': Db, gate: Gate, locks: map<Resource, nat>, i: nat, w: Worker)
    requires WorkerOk(db, gate, locks, i, w) && w.pc == KeyCheck
    requires db' == db.(purse := db'.purse) && db.purse.log <= db'.purse.log
    ensures WorkerOk(db', gate, locks, i, w)
  {
    hide LedgerKey, CreditKey, DisputeKey, L.HasKey, L.HasId, HasDispute, HasSource, GatewayPaid, HasCharge, PostOk,
         CallOk, HoldsOk, Shape;
    BystanderPost(db, db', w);
    BystanderCall(db, db', gate, gate, w);
  }

  lemma AfterCreditHolds(db: Db, locks: map<Resource, nat>, i: nat, w: Worker, pc: Pc)
    requires HoldsOk(locks, i, w) && AbsentOk(db, w) && Shape(w) && w.pc == KeyCheck && w.record.None?
    requires pc == Commit || pc == Final || pc == Resolve || pc == Record
    requires w.job.Outcome? ==> pc == Resolve
    ensures HoldsOk(locks, i, w.(pc := pc)) && AbsentOk(db, w.(pc := pc))
  {
    hide LedgerKey, CreditKey, DisputeKey, L.HasKey, L.HasId, HasDispute, Holds, Lines, Credit;
  }

  lemma AfterCreditPost(db: Db, gate: Gate, w: Worker, ok: bool)
    requires PostOk(db, w) && CallOk(db, gate, w) && Shape(w) && w.pc == KeyCheck && AfterCreditPc(w, ok).Some?
    ensures PostOk(db, w.(pc := AfterCreditPc(w, ok).value)) && Shape(w.(pc := AfterCreditPc(w, ok).value))
  {
    hide LedgerKey, CreditKey, DisputeKey, HasSource, ProcessOk, HasCharge, Wrote, WroteAny, Credit, ReversalLines,
         WonLines, FeeLines;
    var w' := w.(pc := AfterCreditPc(w, ok).value);
    assert Source(w') == Source(w) && Lines(w') == Lines(w);
  }

  lemma AfterCreditCall(db: Db, gate: Gate, w: Worker, ok: bool)
    requires CallOk(db, gate, w) && Shape(w) && w.pc == KeyCheck && AfterCreditPc(w, ok).Some?
    requires ok ==> CreditKnown(db, w)
    ensures CallOk(db, gate, w.(pc := AfterCreditPc(w, ok).value))
  {
    hide LedgerKey, CreditKey, DisputeKey, HasSource, GatewayPaid, HasCharge, Lines, Wrote, WroteAny, Credit;
    assert w.job.Process? ==> ProcessOk(db, gate, w);
  }

  lemma AfterCreditWorker(db: Db, gate: Gate, locks: map<Resource, nat>, i: nat, w: Worker, ok: bool)
    requires WorkerOk(db, gate, locks, i, w.(pc := KeyCheck)) && AfterCreditPc(w, ok).Some?
    requires ok ==> CreditKnown(db, w)
    ensures WorkerOk(db, gate, locks, i, w.(pc := AfterCreditPc(w, ok).value))
  {
    hide PostOk, HoldsOk, AbsentOk, Shape, Wrote, WroteAny, ProcessOk;
    var v := w.(pc := KeyCheck);
    assert v.record.None?;
    AfterCreditHolds(db, locks, i, v, AfterCreditPc(w, ok).value);
    AfterCreditPost(db, gate, v, ok);
    AfterCreditCall(db, gate, v, ok);
  }

  /** The inner transaction ended, possibly after committing db'; the call goes on or fails. */
  lemma AfterCreditGood(s: State, db': Db, locks': map<Resource, nat>, i: nat, ok: bool, opening: map<string, int>)
    requires Inv(s, opening) && i in s.workers && InCredit(s.workers[i].pc)
    requires Evolves(s.db, db') && Guarded(s.db, db', s.locks, i) && RowsOk(db', s.gate, opening)
    requires OthersHold(s.locks, locks', i) && (forall r :: r in locks' ==> r in s.locks && s.locks[r] == locks'[r])
    requires WorkerOk(db', s.gate, locks', i, s.workers[i].(pc := KeyCheck))
    requires ok ==> CreditKnown(db', s.workers[i])
    ensures Good(s, AfterCredit(s.(db := db', locks := locks'), i, s.workers[i], ok), i, opening)
  {
    hide RowsOk, WorkerOk, OthersHold, Evolves, Guarded, GateGrows, CreditKnown, AfterCreditPc;
    var w := s.workers[i];
    var s1 := s.(db := db', locks := locks');
    var s' := AfterCredit(s1, i, w, ok);
    StillOutside(s.db, s.gate, s.locks, i);
    match AfterCreditPc(w, ok)
    case Some(pc) =>
      AfterCreditWorker(db', s.gate, locks', i, w, ok);
      StepKeepsInv(s, s', i, opening);
    case None =>
      ReleasedToo(s.locks, locks', i);
      if w.job.Process? {
        ProcessFacts(db', s.gate, locks', i, w.(pc := KeyCheck));
        CaughtWorker(db', s.gate, Released(locks', i), i, w.(pc := KeyCheck));
      } else {
        OverWorker(db', s.gate, Released(locks', i), i, w);
      }
      StepKeepsInv(s, s', i, opening);
  }

  lemma ReleasedToo(locks: map<Resource, nat>, locks': map<Resource, nat>, i: nat)
    requires OthersHold(locks, locks', i)
    ensures OthersHold(locks, Released(locks', i), i)
  {
  }

  /** The credits call ends without having changed a committed row. */
  lemma CreditEnds(s: State, i: nat, ok: bool, opening: map<string, int>)
    requires Inv(s, opening) && i in s.workers && (s.workers[i].pc == KeyCheck || s.workers[i].pc == RowLock)
    requires ok ==> CreditKnown(s.db, s.workers[i])
    ensures Good(s, AfterCredit(s, i, s.workers[i], ok), i, opening)
  {
    hide RowsOk, WorkerOk, OthersHold, Evolves, Guarded, GateGrows, CreditKnown, AfterCredit, Good;
    StillOutside(s.db, s.gate, s.locks, i);
    ReleasedHold(s.locks, i);
    BackToKeyCheck(s.db, s.gate, s.locks, i, s.workers[i]);
    AfterCreditGood(s, s.db, s.locks, i, ok, opening);
    assert s.(db := s.db, locks := s.locks) == s;
  }

  lemma ToRowLock(db: Db, gate: Gate, locks: map<Resource, nat>, i: nat, w: Worker)
    requires WorkerOk(db, gate, locks, i, w) && w.pc == KeyCheck && Credit(w).amount > 0
    ensures WorkerOk(db, gate, locks, i, w.(pc := RowLock))
  {
    hide LedgerKey, CreditKey, DisputeKey, L.HasKey, L.HasId, HasDispute, HasSource, GatewayPaid, HasCharge, Holds;
  }

  lemma KeyCheckGood(s: State, i: nat, opening: map<string, int>)
    requires Inv(s, opening) && i in s.workers && s.workers[i].pc == KeyCheck
    ensures Good(s, DoKeyCheck(s, i, s.workers[i]), i, opening)
  {
    hide RowsOk, OthersHold, Good, AfterCredit, C.HasKey, Key, Credit, CallOk, HoldsOk, AbsentOk, PostOk, Shape,
         WorkerOk, CreditKnown;
    var w := s.workers[i];
    if Credit(w).amount <= 0 {
      CreditEnds(s, i, false, opening);
    } else if C.HasKey(s.db.purse.log, Key(w)) {
      CallFacts(s.db, s.gate, s.locks, i, w);
      KeyMeansCredit(s.db, s.gate, opening, w);
      CreditEnds(s, i, true, opening);
    } else {
      ReleasedHold(s.locks, i);
      ToRowLock(s.db, s.gate, s.locks, i, w);
      LocalGood(s, DoKeyCheck(s, i, w), i, opening);
    }
  }

  lemma CallFacts(db: Db, gate: Gate, locks: map<Resource, nat>, i: nat, w: Worker)
    requires WorkerOk(db, gate, locks, i, w)
    ensures CallOk(db, gate, w) && HoldsOk(locks, i, w) && AbsentOk(db, w) && PostOk(db, w)
  {
  }

  lemma ToSettle(db: Db, gate: Gate, locks: map<Resource, nat>, i: nat, w: Worker)
    requires WorkerOk(db, gate, locks, i, w) && w.pc == RowLock
    requires var c := Credit(w); c.grant || C.Balance(db.purse.balances, c.user) >= c.amount
    ensures var c := Credit(w);
            WorkerOk(db, gate, locks[CreditsRow(c.user) := i], i, w.(bal := C.Balance(db.purse.balances, c.user), pc := Settle))
  {
    hide LedgerKey, CreditKey, DisputeKey, L.HasKey, L.HasId, HasDispute, HasSource, GatewayPaid, HasCharge;
  }

  lemma RowLockGood(s: State, i: nat, opening: map<string, int>)
    requires Inv(s, opening) && i in s.workers && s.workers[i].pc == RowLock
    ensures Good(s, DoRowLock(s, i, s.workers[i]), i, opening)
  {
    hide RowsOk, WorkerOk, OthersHold, Good, AfterCredit, C.Balance, Credit;
    var w := s.workers[i];
    var c := Credit(w);
    var s' := DoRowLock(s, i, w);
    if !Free(s, CreditsRow(c.user), i) {
      Stay(s, i, opening);
    } else if !c.grant && C.Balance(s.db.purse.balances, c.user) < c.amount {
      CreditEnds(s, i, false, opening);
    } else {
      TakenHold(s.locks, CreditsRow(c.user), i);
      ToSettle(s.db, s.gate, s.locks, i, w);
      LocalGood(s, s', i, opening);
    }
  }

  lemma CreditRowOk(db: Db, gate: Gate, opening: map<string, int>, locks: map<Resource, nat>, i: nat, w: Worker)
    requires RowsOk(db, gate, opening) && WorkerOk(db, gate, locks, i, w) && w.pc == Settle
    ensures CreditOk(db, gate, CreditRow(w))
  {
    if w.job.Process? && w.snap.kind == PAYMENT {
      PaidStays(gate, gate, w.snap, db.refunds[w.job.refund], w.job.refund, w.answer.gatewayRefundId);
    }
  }

  lemma SettledRowsOk(db: Db, db': Db, gate: Gate, opening: map<string, int>, t: C.CreditTxn)
    requires RowsOk(db, gate, opening) && CreditOk(db, gate, t)
    requires C.Balance(db.purse.balances, t.user) + t.amount >= 0
    requires db' == db.(purse := C.Apply(db.purse, t))
    ensures RowsOk(db', gate, opening)
  {
    C.ApplySound(db.purse, opening, t);
    forall id | id in db'.refunds ensures RefundOk(db', gate, id) {
      assert RefundOk(db, gate, id);
      var r := db.refunds[id];
      if r.status == PROCESSED && r.kind == CREDITS {
        WroteStays(db.purse.log, db'.purse.log, RefundGrant(id), r.user, r.amount);
      }
    }
    forall k | 0 <= k < |db'.purse.log| ensures CreditOk(db', gate, db'.purse.log[k]) {
      assert k < |db.purse.log| ==> CreditOk(db, gate, db.purse.log[k]);
    }
    forall h | h in db'.webhooks && db'.webhooks[h] == G.SOLANA ensures SettledOk(db', h) {
      assert SettledOk(db, h);
      WroteAnyStays(db.purse.log, db'.purse.log, SolanaGrant(h));
    }
    forall k | 0 <= k < |db'.books.txns| ensures TxnOk(db', db'.books.txns[k]) {
      assert TxnOk(db, db.books.txns[k]);
    }
    forall d | d in db'.disputes ensures DisputeOk(db', db'.disputes[d]) {
      assert DisputeOk(db, db.disputes[d]);
    }
  }

  lemma SettleChanges(db: Db, db': Db, locks: map<Resource, nat>, i: nat, t: C.CreditTxn)
    requires db' == db.(purse := C.Apply(db.purse, t)) && Holds(locks, CreditsRow(t.user), i)
    ensures Evolves(db, db') && Guarded(db, db', locks, i)
  {
  }

  lemma SettledCreditKnown(db: Db, w: Worker)
    requires |db.purse.log| > 0 && db.purse.log[|db.purse.log| - 1] == CreditRow(w)
    ensures CreditKnown(db, w)
  {
    hide CreditKey;
    var k := |db.purse.log| - 1;
    assert db.purse.log[k].source == Some(Credit(w).source);
  }

  lemma SettleFacts(db: Db, gate: Gate, opening: map<string, int>, locks: map<Resource, nat>, i: nat, w: Worker)
    requires RowsOk(db, gate, opening) && WorkerOk(db, gate, locks, i, w) && w.pc == Settle
    ensures Holds(locks, CreditsRow(Credit(w).user), i)
    ensures w.bal == C.Balance(db.purse.balances, Credit(w).user)
    ensures w.bal + CreditRow(w).amount >= 0
  {
    hide LedgerKey, CreditKey, DisputeKey, TxnOk, RefundOk, DisputeOk, CreditOk, SettledOk, GateOk, L.Sound, HoldsOk,
         PostOk, Shape;
    assert HoldsOk(locks, i, w);
    assert C.Balance(db.purse.balances, Credit(w).user) >= 0;
    SettleHolds(locks, i, w);
  }

  lemma SettleHolds(locks: map<Resource, nat>, i: nat, w: Worker)
    requires HoldsOk(locks, i, w) && w.pc == Settle
    ensures Holds(locks, CreditsRow(Credit(w).user), i)
  {
    hide LedgerKey, CreditKey, DisputeKey;
  }

  lemma SettleGood(s: State, i: nat, opening: map<string, int>)
    requires Inv(s, opening) && i in s.workers && s.workers[i].pc == Settle
    ensures Good(s, DoSettle(s, i, s.workers[i]), i, opening)
  {
    hide RowsOk, WorkerOk, OthersHold, Evolves, Guarded, GateGrows, CreditKnown, AfterCredit, Good, Credit, CreditOk,
         Key, C.Balance;
    var w := s.workers[i];
    var row := CreditRow(w);
    var db' := s.db.(purse := C.Apply(s.db.purse, row));
    var locks' := Drop(s.locks, CreditsRow(row.user));
    SettleFacts(s.db, s.gate, opening, s.locks, i, w);
    CreditRowOk(s.db, s.gate, opening, s.locks, i, w);
    SettledRowsOk(s.db, db', s.gate, opening, row);
    SettleChanges(s.db, db', s.locks, i, row);
    BackToKeyCheck(s.db, s.gate, s.locks, i, w);
    RowGivenBack(s.db, s.gate, s.locks, i, w.(pc := KeyCheck), row.user);
    PurseChanged(s.db, db', s.gate, locks', i, w.(pc := KeyCheck));
    SettledCreditKnown(db', w);
    AfterCreditGood(s, db', locks', i, true, opening);
    assert DoSettle(s, i, w) == AfterCredit(s.(db := db', locks := locks'), i, w, true);
  }

  /** The inner transaction throws after taking the row lock. */
  lemma SettleThrowGood(s: State, i: nat, opening: map<string, int>)
    requires Inv(s, opening) && i in s.workers && s.workers[i].pc == Settle
    ensures Good(s, AfterCredit(s.(locks := Drop(s.locks, CreditsRow(Credit(s.workers[i]).user))), i, s.workers[i], false), i, opening)
  {
    hide RowsOk, WorkerOk, OthersHold, Evolves, Guarded, GateGrows, CreditKnown, AfterCredit, Good, Credit;
    var w := s.workers[i];
    var user := Credit(w).user;
    SettleFacts(s.db, s.gate, opening, s.locks, i, w);
    BackToKeyCheck(s.db, s.gate, s.locks, i, w);
    RowGivenBack(s.db, s.gate, s.locks, i, w.(pc := KeyCheck), user);
    StillOutside(s.db, s.gate, s.locks, i);
    AfterCreditGood(s, s.db, Drop(s.locks, CreditsRow(user)), i, false, opening);
    assert s.(db := s.db, locks := Drop(s.locks, CreditsRow(user))) == s.(locks := Drop(s.locks, CreditsRow(user)));
  }

  // ----- The rest of the outer transaction -----

  lemma RecordWorker(db: Db, gate: Gate, locks: map<Resource, nat>, locks': map<Resource, nat>, i: nat, w: Worker,
      w': Worker)
    requires WorkerOk(db, gate, locks, i, w) && w.pc == Record
    requires var rec := RecordOf(w.job);
             || (!RecordsCharge(w.job) && locks' == locks && w' == w.(pc := Commit))
             || (HasCharge(db.charges, rec.gateway, rec.txn) && locks' == locks && w' == w.(pc := Commit))
             || (RecordsCharge(w.job) && !HasCharge(db.charges, rec.gateway, rec.txn)
                 && locks' == locks[ChargeId(rec.gateway, rec.txn) := i] && w' == w.(record := Some(rec), pc := Commit))
    ensures WorkerOk(db, gate, locks', i, w')
  {
    hide LedgerKey, CreditKey, DisputeKey, L.HasKey, L.HasId, HasDispute, HasSource, GatewayPaid, Lines, Wrote,
         WroteAny, HasCharge;
  }

  lemma RecordGood(s: State, i: nat, opening: map<string, int>)
    requires Inv(s, opening) && i in s.workers && s.workers[i].pc == Record
    ensures Good(s, DoRecord(s, i, s.workers[i]), i, opening)
  {
    hide RowsOk, WorkerOk, OthersHold, Good, HasCharge, RecordOf, RecordsCharge;
    var w := s.workers[i];
    var s' := DoRecord(s, i, w);
    if s' == s {
      Stay(s, i, opening);
    } else {
      var rec := RecordOf(w.job);
      ReleasedHold(s.locks, i);
      if Free(s, ChargeId(rec.gateway, rec.txn), i) {
        TakenHold(s.locks, ChargeId(rec.gateway, rec.txn), i);
      }
      RecordWorker(s.db, s.gate, s.locks, s'.locks, i, w, s'.workers[i]);
      LocalGood(s, s', i, opening);
    }
  }

  lemma ResolveWorker(db: Db, gate: Gate, locks: map<Resource, nat>, i: nat, w: Worker)
    requires WorkerOk(db, gate, locks, i, w) && w.pc == Resolve
    ensures WorkerOk(db, gate, locks[DisputeRow(w.disp) := i], i, w.(pc := Commit))
  {
    hide LedgerKey, CreditKey, DisputeKey, L.HasKey, L.HasId, HasDispute, HasSource, GatewayPaid, Wrote, WroteAny,
         HasCharge;
  }

  lemma ResolveGood(s: State, i: nat, opening: map<string, int>)
    requires Inv(s, opening) && i in s.workers && s.workers[i].pc == Resolve
    ensures Good(s, DoResolve(s, i, s.workers[i]), i, opening)
  {
    hide RowsOk, WorkerOk, OthersHold, Good;
    var w := s.workers[i];
    var s' := DoResolve(s, i, w);
    if s' == s {
      Stay(s, i, opening);
    } else {
      TakenHold(s.locks, DisputeRow(w.disp), i);
      ResolveWorker(s.db, s.gate, s.locks, i, w);
      LocalGood(s, s', i, opening);
    }
  }

  // ----- The gateway -----

  lemma GateRowsOk(db: Db, gate: Gate, gate': Gate, opening: map<string, int>)
    requires RowsOk(db, gate, opening) && GateGrows(gate, gate') && GateOk(db, gate')
    ensures RowsOk(db, gate', opening)
  {
    hide L.Sound, C.Sound, TxnOk, DisputeOk, SettledOk, CreditKey, GateOk;
    forall id | id in db.refunds ensures RefundOk(db, gate', id) {
      assert RefundOk(db, gate, id);
      var r := db.refunds[id];
      if r.paymentRefundId.Some? {
        PaidStays(gate, gate', r, r, id, r.paymentRefundId.value);
      }
    }
    forall k | 0 <= k < |db.purse.log| ensures CreditOk(db, gate', db.purse.log[k]) {
      CreditStays(db, db, gate, gate', db.purse.log[k]);
    }
  }

  lemma CreditStays(db: Db, db': Db, gate: Gate, gate': Gate, t: C.CreditTxn)
    requires CreditOk(db, gate, t) && Evolves(db, db') && GateGrows(gate, gate')
    ensures CreditOk(db', gate', t)
  {
    hide CreditKey, GatewayPaid;
    if t.source.value.RefundDeduct? {
      var id := t.source.value.refund;
      var gid :| GatewayPaid(gate, db.refunds[id], id, gid);
      PaidStays(gate, gate', db.refunds[id], db'.refunds[id], id, gid);
    }
  }

  lemma EntryStays(db: Db, db': Db, g: G.Gateway, key: string, entry: G.Refunded)
    requires EntryOk(db, g, key, entry) && Evolves(db, db')
    ensures EntryOk(db', g, key, entry)
  {
    hide CreditKey;
    var id :| && id in db.refunds && key == CreditKey(RefundDeduct(id))
              && db.refunds[id].kind == PAYMENT && db.refunds[id].gateway == Some(g) && db.refunds[id].amount == entry.refundedAmount;
    assert SameTerms(db.refunds[id], db'.refunds[id]);
  }

  /** A refund call answers with the full amount of the refund, from the log or freshly. */
  lemma GatewayAnswers(db: Db, gate: Gate, id: string, snap: Refund, mint: string)
    requires GateOk(db, gate) && id in db.refunds && SameTerms(snap, db.refunds[id])
    requires snap.kind == PAYMENT && snap.gateway.Some? && snap.charge.Some?
    ensures var g := snap.gateway.value;
            var key := CreditKey(RefundDeduct(id));
            var st := gate.At(g);
            var gate' := gate.With(g, G.AfterRefund(g, st, snap.charge.value, snap.amount, key, mint));
            var answer := G.Answer(g, st, snap.charge.value, snap.amount, key, mint);
            && GateGrows(gate, gate') && GateOk(db, gate')
            && answer.refundedAmount == snap.amount && GatewayPaid(gate', snap, id, answer.gatewayRefundId)
  {
    hide CreditKey;
    var g := snap.gateway.value;
    var key := CreditKey(RefundDeduct(id));
    var st := gate.At(g);
    var gate' := gate.With(g, G.AfterRefund(g, st, snap.charge.value, snap.amount, key, mint));
    if key in st.refundLog {
      assert EntryOk(db, g, key, st.refundLog[key]);
      var id' :| id' in db.refunds && key == CreditKey(RefundDeduct(id'))
                 && db.refunds[id'].kind == PAYMENT && db.refunds[id'].gateway == Some(g)
                 && db.refunds[id'].amount == st.refundLog[key].refundedAmount;
      CreditKeysSeparate(RefundDeduct(id), RefundDeduct(id'));
    }
    forall h: G.Gateway, k | k in gate'.At(h).refundLog ensures EntryOk(db, h, k, gate'.At(h).refundLog[k]) {
      if h == g && k == key {
        assert db.refunds[id].amount == gate'.At(h).refundLog[k].refundedAmount;
      } else {
        assert k in gate.At(h).refundLog && gate'.At(h).refundLog[k] == gate.At(h).refundLog[k];
      }
    }
  }

  lemma CallGatewayWorker(db: Db, gate: Gate, gate': Gate, locks: map<Resource, nat>, i: nat, w: Worker,
      answer: G.Refunded)
    requires WorkerOk(db, gate, locks, i, w) && w.pc == CallGateway && w.job.Process? && w.post.None? && w.record.None?
    requires answer.refundedAmount == w.snap.amount && GatewayPaid(gate', w.snap, w.job.refund, answer.gatewayRefundId)
    ensures WorkerOk(db, gate', locks, i, w.(answer := answer, pc := Check))
  {
    hide LedgerKey, CreditKey, DisputeKey, L.HasKey, L.HasId, HasDispute, HasSource, GatewayPaid, HasCharge, Wrote,
         WroteAny, Holds;
  }

  lemma CallGatewayFacts(db: Db, gate: Gate, locks: map<Resource, nat>, i: nat, w: Worker)
    requires WorkerOk(db, gate, locks, i, w) && w.pc == CallGateway
    ensures w.job.Process? && w.job.refund in db.refunds && SameTerms(w.snap, db.refunds[w.job.refund])
    ensures w.snap.kind == PAYMENT && w.snap.gateway.Some? && w.snap.charge.Some?
  {
    hide LedgerKey, CreditKey, DisputeKey, L.HasKey, L.HasId, HasDispute, HasSource, GatewayPaid, HasCharge, Wrote,
         WroteAny, Holds;
    assert Shape(w);
  }

  lemma RowsHaveGate(db: Db, gate: Gate, opening: map<string, int>)
    requires RowsOk(db, gate, opening)
    ensures GateOk(db, gate)
  {
  }

  lemma CallGatewayGood(s: State, i: nat, mint: string, opening: map<string, int>)
    requires Inv(s, opening) && i in s.workers && s.workers[i].pc == CallGateway
    ensures Good(s, DoCallGateway(s, i, s.workers[i], mint), i, opening)
  {
    hide RowsOk, WorkerOk, OthersHold, Good, GateOk, GatewayPaid, GateGrows, CreditKey, G.AfterRefund, G.Answer,
         Evolves, Guarded;
    var w := s.workers[i];
    var s' := DoCallGateway(s, i, w, mint);
    CallGatewayFacts(s.db, s.gate, s.locks, i, w);
    RowsHaveGate(s.db, s.gate, opening);
    GatewayAnswers(s.db, s.gate, w.job.refund, w.snap, mint);
    BareEarly(s.db, s.gate, s.locks, i, w);
    CallGatewayWorker(s.db, s.gate, s'.gate, s.locks, i, w, s'.workers[i].answer);
    GateRowsOk(s.db, s.gate, s'.gate, opening);
    StillOutside(s.db, s.gate, s.locks, i);
    ReleasedHold(s.locks, i);
    StepGood(s, s', i, opening);
  }

  lemma StepGood(s: State, s': State, i: nat, opening: map<string, int>)
    requires Inv(s, opening) && StepBy(s, s', i)
    requires RowsOk(s'.db, s'.gate, opening)
    requires WorkerOk(s'.db, s'.gate, s'.locks, i, s'.workers[i])
    requires forall r :: r in s'.locks ==> s'.locks[r] == i || (r in s.locks && s.locks[r] == s'.locks[r])
    ensures Good(s, s', i, opening)
  {
    hide Inv, StepBy, RowsOk, WorkerOk;
    StepKeepsInv(s, s', i, opening);
  }
}
