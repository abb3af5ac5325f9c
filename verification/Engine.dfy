/**
 * The money engine as a machine of small steps.
 *
 * The committed database, the gateways' own memory, the row locks and unique-key
 * reservations that open transactions hold, and any number of calls in progress. Each step
 * runs one call up to its next await. Steps of different calls interleave freely; any call
 * may fail or die between two steps, and any call may be started again.
 *
 * A call's outer transaction writes nothing to the committed database until it commits.
 * The credits call inside it is a transaction of its own that commits by itself.
 */
module Engine {
  import opened Prelude
  import opened Keys
  import G = Gateways
  import L = Ledger
  import C = Credits

  // ----- Committed rows -----

  datatype RefundKind = CREDITS | PAYMENT
  datatype RefundStatus = PENDING | APPROVED | DENIED | PROCESSED

  datatype Refund = Refund(
    user: string, kind: RefundKind, amount: int,
    gateway: Option<G.Gateway>, charge: Option<string>,
    status: RefundStatus, paymentRefundId: Option<string>, attempts: nat)

  datatype DisputeStatus = OPEN | EVIDENCE_SUBMITTED | WON | LOST

  datatype Dispute = Dispute(
    user: string, gatewayDisputeId: string, charge: string, amount: int,
    status: DisputeStatus, reversal: Option<string>)

  datatype ChargeRecord = ChargeRecord(gateway: G.Gateway, txn: string, user: string, amount: int)

  datatype Db = Db(
    refunds: map<string, Refund>,
    disputes: map<string, Dispute>,
    books: L.Books,
    purse: C.Purse,
    webhooks: map<string, G.Gateway>,
    charges: seq<ChargeRecord>)

  /** The gateways remember refunds on their side; nothing in the database undoes them. */
  datatype Gate = Gate(an: G.GatewayState, sol: G.GatewayState) {
    function At(g: G.Gateway): G.GatewayState {
      match g case AUTHORIZE_NET => an case SOLANA => sol
    }

    function With(g: G.Gateway, st: G.GatewayState): Gate {
      match g case AUTHORIZE_NET => this.(an := st) case SOLANA => this.(sol := st)
    }
  }

  // ----- Calls in progress -----

  datatype Job =
    | Process(refund: string)
    | Review(refund: string, approve: bool)
    | Chargeback(event: string, charge: string, user: string, amount: int)
    | Approved(event: string, charge: string, user: string, credits: Option<int>, cents: int)
    | Refunded(event: string, charge: string, user: string, taken: int)
    | Other(event: string)
    | Confirm(hash: string, user: string, amount: int, depth: int)
    | Outcome(dispute: string, won: bool, fee: int)
    | Evidence(dispute: string)

  /** The statement a call runs next. */
  datatype Pc =
    | Start | CallGateway
    | Dedup | Find | Insert | Check | Post | Link
    | KeyCheck | RowLock | Settle
    | Record | Resolve | Commit
    | Final | Catch | Write | Done

  datatype Worker = Worker(
    job: Job, pc: Pc,
    snap: Refund,               // the refund row as read at the start
    answer: G.Refunded,         // what the gateway returned
    disp: string, dis: Dispute, // the dispute row found, inserted or read
    made: bool,                 // this transaction inserted the dispute
    linked: bool,               // this transaction linked a reversal to the dispute
    post: Option<L.Txn>,        // the uncommitted ledger transaction
    txnId: string,
    bal: int,                   // the credits balance read under the row lock
    record: Option<ChargeRecord>)

  /** Rows and unique keys that an open transaction can hold against the others. */
  datatype Resource =
    | WebhookId(id: string)
    | DisputeId(gatewayDisputeId: string)
    | DisputeRow(dispute: string)
    | LedgerId(key: string)
    | TxnRow(txn: string)
    | RefundRow(refund: string)
    | CreditsRow(user: string)
    | ChargeId(gateway: G.Gateway, txn: string)

  datatype State = State(db: Db, gate: Gate, locks: map<Resource, nat>, workers: map<nat, Worker>, required: int)

  const NoRefund := Refund("", CREDITS, 0, None, None, PENDING, None, 0)
  const NoDispute := Dispute("", "", "", 0, OPEN, None)

  function Begin(job: Job): Worker {
    Worker(job, Start, NoRefund, G.Refunded("", 0), "", NoDispute, false, false, None, "", 0, None)
  }

  function Given(o: Option<string>): bool {
    o.Some? && o.value != ""
  }

  // ----- What a call writes -----

  function Revenue(): L.Account { L.Account(L.SYSTEM_USER_ID, L.REVENUE) }
  function Expense(): L.Account { L.Account(L.SYSTEM_USER_ID, L.EXPENSE) }
  function Asset(user: string): L.Account { L.Account(user, L.ASSET) }

  /** Money returned to the user: revenue down, the user's asset down. */
  function ReversalLines(user: string, amount: int): seq<L.Entry> {
    [L.Entry(Revenue(), L.DEBIT, amount), L.Entry(Asset(user), L.CREDIT, amount)]
  }

  function WonLines(user: string, amount: int): seq<L.Entry> {
    [L.Entry(Asset(user), L.DEBIT, amount), L.Entry(Revenue(), L.CREDIT, amount)]
  }

  function FeeLines(user: string, fee: int): seq<L.Entry> {
    [L.Entry(Expense(), L.DEBIT, fee), L.Entry(Asset(user), L.CREDIT, fee)]
  }

  predicate PostsLedger(job: Job) {
    job.Process? || job.Chargeback? || job.Outcome?
  }

  function Source(w: Worker): LedgerSource {
    match w.job
    case Process(id) => RefundOf(id)
    case Chargeback(_, charge, _, _) => ReversalOf(charge)
    case Outcome(d, won, _) => if won then WonOf(d) else LostOf(d)
    case _ => RefundOf("")
  }

  function Lines(w: Worker): seq<L.Entry> {
    match w.job
    case Process(_) => ReversalLines(w.snap.user, w.answer.refundedAmount)
    case Chargeback(_, _, user, amount) => ReversalLines(user, amount)
    case Outcome(_, won, fee) => if won then WonLines(w.dis.user, w.dis.amount) else FeeLines(w.dis.user, fee)
    case _ => ReversalLines("", 0)
  }

  function LineAmount(w: Worker): int {
    Lines(w)[0].amount
  }

  /** The credits call a job makes, if it makes one. */
  datatype CreditCall = CreditCall(user: string, amount: int, grant: bool, kind: C.CreditType, source: CreditSource)

  function Credit(w: Worker): CreditCall {
    match w.job
    case Process(id) =>
      if w.snap.kind == PAYMENT then CreditCall(w.snap.user, w.snap.amount, false, C.USAGE, RefundDeduct(id))
      else CreditCall(w.snap.user, w.snap.amount, true, C.REFUND, RefundGrant(id))
    case Chargeback(_, charge, user, amount) => CreditCall(user, amount, false, C.USAGE, ChargebackDeduct(charge))
    case Approved(_, charge, user, credits, _) =>
      CreditCall(user, if credits.Some? then credits.value else 0, true, C.PURCHASE, ChargeGrant(charge))
    case Refunded(_, charge, user, credits) => CreditCall(user, credits, false, C.USAGE, ChargeReversal(charge))
    case Confirm(hash, user, amount, _) => CreditCall(user, amount, true, C.PURCHASE, SolanaGrant(hash))
    case Outcome(d, _, _) => CreditCall(w.dis.user, w.dis.amount, true, C.REFUND, WonGrant(d))
    case Review(_, _) => CreditCall("", 0, true, C.BONUS, RefundGrant(""))
    case Other(_) => CreditCall("", 0, true, C.BONUS, RefundGrant(""))
    case Evidence(_) => CreditCall("", 0, true, C.BONUS, RefundGrant(""))
  }

  function Key(w: Worker): string {
    CreditKey(Credit(w).source)
  }

  function CreditRow(w: Worker): C.CreditTxn {
    var c := Credit(w);
    C.CreditTxn(c.user, if c.grant then c.amount else -c.amount, c.kind, Some(Key(w)), Some(c.source))
  }

  /** The id a delivery is deduplicated by. */
  function WebhookOf(job: Job): Option<string> {
    match job
    case Chargeback(e, _, _, _) => Some(e)
    case Approved(e, _, _, _, _) => Some(e)
    case Refunded(e, _, _, _) => Some(e)
    case Other(e) => Some(e)
    case Confirm(h, _, _, _) => Some(h)
    case _ => None
  }

  function RecordOf(job: Job): ChargeRecord {
    match job
    case Approved(_, charge, user, _, cents) => ChargeRecord(G.AUTHORIZE_NET, charge, user, cents)
    case Confirm(hash, user, amount, _) => ChargeRecord(G.SOLANA, hash, user, amount)
    case _ => ChargeRecord(G.SOLANA, "", "", 0)
  }

  /** A charge record is written only for a named charge and user on the card path. */
  predicate RecordsCharge(job: Job) {
    job.Confirm? || (job.Approved? && job.charge != "" && job.user != "")
  }

  // ----- Committed lookups -----

  ghost predicate HasDispute(disputes: map<string, Dispute>, gid: string) {
    exists d :: d in disputes && disputes[d].gatewayDisputeId == gid
  }

  ghost function FindDispute(disputes: map<string, Dispute>, gid: string): (d: string)
    requires HasDispute(disputes, gid)
    ensures d in disputes && disputes[d].gatewayDisputeId == gid
  {
    var d :| d in disputes && disputes[d].gatewayDisputeId == gid; d
  }

  ghost predicate HasCharge(charges: seq<ChargeRecord>, g: G.Gateway, txn: string) {
    exists k :: 0 <= k < |charges| && charges[k].gateway == g && charges[k].txn == txn
  }

  ghost function IdByKey(txns: seq<L.Txn>, key: string): string
    requires L.HasKey(txns, key)
  {
    var k :| 0 <= k < |txns| && txns[k].key == Some(key); txns[k].id
  }

  /** The most recent settled charge of a user on a gateway. */
  function LatestCharge(charges: seq<ChargeRecord>, user: string, g: G.Gateway): Option<string> {
    if charges == [] then None
    else
      var last := charges[|charges| - 1];
      if last.user == user && last.gateway == g then Some(last.txn)
      else LatestCharge(charges[..|charges| - 1], user, g)
  }

  // ----- Locks -----

  predicate Holds(locks: map<Resource, nat>, r: Resource, i: nat) {
    r in locks && locks[r] == i
  }

  /** Nobody else holds it; otherwise the statement waits. */
  predicate Free(s: State, r: Resource, i: nat) {
    r in s.locks ==> s.locks[r] == i
  }

  function Released(locks: map<Resource, nat>, i: nat): map<Resource, nat> {
    map r | r in locks && locks[r] != i :: locks[r]
  }

  function Move(s: State, i: nat, w: Worker): State {
    s.(workers := s.workers[i := w])
  }

  function Take(s: State, r: Resource, i: nat, w: Worker): State {
    s.(locks := s.locks[r := i], workers := s.workers[i := w])
  }

  function Drop(locks: map<Resource, nat>, r: Resource): map<Resource, nat> {
    map x | x in locks && x != r :: locks[x]
  }

  /** The call is over; an open transaction is rolled back. */
  function Finish(s: State, i: nat, w: Worker): State {
    s.(locks := Released(s.locks, i), workers := s.workers[i := w.(pc := Done, post := None, record := None)])
  }

  /** The statement threw: roll back, and let processRefund's handler record the attempt. */
  function Fail(s: State, i: nat, w: Worker): State {
    s.(locks := Released(s.locks, i),
       workers := s.workers[i := w.(pc := if w.job.Process? then Catch else Done, post := None, record := None)])
  }

  // ----- Statements -----

  function DoStart(s: State, i: nat, w: Worker): State {
    match w.job
    case Process(id) =>
      if id !in s.db.refunds || s.db.refunds[id].status != APPROVED then Finish(s, i, w)
      else
        var r := s.db.refunds[id];
        Move(s, i, w.(snap := r, pc :=
          if r.kind == CREDITS then KeyCheck
          else if r.paymentRefundId.Some? then Final
          else if r.gateway.None? || !Given(r.charge) then Catch
          else CallGateway))
    case Review(id, _) =>
      if id !in s.db.refunds || s.db.refunds[id].status != PENDING then Finish(s, i, w)
      else Move(s, i, w.(pc := Write))
    case Confirm(hash, _, _, depth) =>
      if hash == "" || depth < s.required || hash in s.db.webhooks then Finish(s, i, w)
      else Move(s, i, w.(pc := Dedup))
    case Outcome(d, _, _) =>
      if d !in s.db.disputes || s.db.disputes[d].status == WON || s.db.disputes[d].status == LOST then Finish(s, i, w)
      else Move(s, i, w.(disp := d, dis := s.db.disputes[d], pc := Check))
    case Evidence(d) =>
      if d !in s.db.disputes || s.db.disputes[d].status != OPEN then Finish(s, i, w)
      else Move(s, i, w.(pc := Write))
    case _ =>
      var e := WebhookOf(w.job).value;
      if e == "" || e in s.db.webhooks then Finish(s, i, w)
      else Move(s, i, w.(pc := Dedup))
  }

  function DoCallGateway(s: State, i: nat, w: Worker, mint: string): State {
    if w.job.Process? && w.snap.gateway.Some? && w.snap.charge.Some? then
      var g := w.snap.gateway.value;
      var st := s.gate.At(g);
      var key := CreditKey(RefundDeduct(w.job.refund));
      s.(gate := s.gate.With(g, G.AfterRefund(g, st, w.snap.charge.value, w.snap.amount, key, mint)),
         workers := s.workers[i := w.(answer := G.Answer(g, st, w.snap.charge.value, w.snap.amount, key, mint), pc := Check)])
    else s
  }

  function DoDedup(s: State, i: nat, w: Worker): State {
    var e := WebhookOf(w.job);
    if e.None? || !Free(s, WebhookId(e.value), i) then s
    else if e.value in s.db.webhooks then Finish(s, i, w)
    else Take(s, WebhookId(e.value), i, w.(pc :=
      if w.job.Chargeback? then Find
      else if w.job.Other? then Commit
      else if w.job.Approved? && w.job.credits.None? then Record
      else KeyCheck))
  }

  ghost function DoFind(s: State, i: nat, w: Worker): State {
    if !w.job.Chargeback? then s
    else if HasDispute(s.db.disputes, DisputeKey(w.job.charge)) then
      var d := FindDispute(s.db.disputes, DisputeKey(w.job.charge));
      Move(s, i, w.(disp := d, dis := s.db.disputes[d], pc := if s.db.disputes[d].reversal.Some? then Commit else Check))
    else Move(s, i, w.(pc := Insert))
  }

  ghost function DoInsert(s: State, i: nat, w: Worker, mint: string): State {
    if !w.job.Chargeback? then s
    else
      var gid := DisputeKey(w.job.charge);
      if !Free(s, DisputeId(gid), i) then s
      else if HasDispute(s.db.disputes, gid) then Finish(s, i, w)
      else if mint in s.db.disputes || DisputeRow(mint) in s.locks then s
      else s.(locks := s.locks[DisputeId(gid) := i][DisputeRow(mint) := i],
              workers := s.workers[i := w.(made := true, disp := mint, pc := Check,
                dis := Dispute(w.job.user, gid, w.job.charge, w.job.amount, OPEN, None))])
  }

  function AfterPost(job: Job): Pc {
    if job.Outcome? then (if job.won then KeyCheck else Resolve) else Link
  }

  ghost function DoCheck(s: State, i: nat, w: Worker): State {
    var key := LedgerKey(Source(w));
    if L.HasKey(s.db.books.txns, key)
    then Move(s, i, w.(txnId := IdByKey(s.db.books.txns, key), pc := AfterPost(w.job)))
    else Move(s, i, w.(pc := Post))
  }

  ghost function DoPost(s: State, i: nat, w: Worker, mint: string): State {
    var key := LedgerKey(Source(w));
    if LineAmount(w) <= 0 then Fail(s, i, w)
    else if !Free(s, LedgerId(key), i) then s
    else if L.HasKey(s.db.books.txns, key) then Fail(s, i, w)
    else if L.HasId(s.db.books.txns, mint) || TxnRow(mint) in s.locks then s
    else s.(locks := s.locks[LedgerId(key) := i][TxnRow(mint) := i],
            workers := s.workers[i := w.(txnId := mint, pc := AfterPost(w.job),
              post := Some(L.Txn(mint, Some(key), Some(Source(w)), Lines(w))))])
  }

  function DoLink(s: State, i: nat, w: Worker): State {
    var row := if w.job.Process? then RefundRow(w.job.refund) else DisputeRow(w.disp);
    if !Free(s, row, i) then s
    else Take(s, row, i, w.(linked := true, pc := KeyCheck))
  }

  /** Where a call goes after its credits call; None when a credits error ends it. */
  function AfterCreditPc(w: Worker, ok: bool): Option<Pc> {
    match w.job
    case Process(_) =>
      if w.snap.kind == PAYMENT then Some(Commit)
      else if ok then Some(Final)
      else None
    case Chargeback(_, _, _, _) => Some(Commit)
    case Refunded(_, _, _, _) => Some(Commit)
    case Outcome(_, _, _) => Some(Resolve)
    case _ => if ok then Some(Record) else None
  }

  function AfterCredit(s: State, i: nat, w: Worker, ok: bool): State {
    match AfterCreditPc(w, ok)
    case Some(pc) => Move(s, i, w.(pc := pc))
    case None => Fail(s, i, w)
  }

  ghost function DoKeyCheck(s: State, i: nat, w: Worker): State {
    if Credit(w).amount <= 0 then AfterCredit(s, i, w, false)
    else if C.HasKey(s.db.purse.log, Key(w)) then AfterCredit(s, i, w, true)
    else Move(s, i, w.(pc := RowLock))
  }

  function DoRowLock(s: State, i: nat, w: Worker): State {
    var c := Credit(w);
    if !Free(s, CreditsRow(c.user), i) then s
    else if !c.grant && C.Balance(s.db.purse.balances, c.user) < c.amount then AfterCredit(s, i, w, false)
    else Take(s, CreditsRow(c.user), i, w.(bal := C.Balance(s.db.purse.balances, c.user), pc := Settle))
  }

  function DoSettle(s: State, i: nat, w: Worker): State {
    var c := Credit(w);
    var row := CreditRow(w);
    var db := s.db.(purse := C.Purse(s.db.purse.balances[c.user := w.bal + row.amount], s.db.purse.log + [row]));
    AfterCredit(s.(db := db, locks := Drop(s.locks, CreditsRow(c.user))), i, w, true)
  }

  ghost function DoRecord(s: State, i: nat, w: Worker): State {
    var rec := RecordOf(w.job);
    if !RecordsCharge(w.job) then Move(s, i, w.(pc := Commit))
    else if !Free(s, ChargeId(rec.gateway, rec.txn), i) then s
    else if HasCharge(s.db.charges, rec.gateway, rec.txn) then Move(s, i, w.(pc := Commit))
    else Take(s, ChargeId(rec.gateway, rec.txn), i, w.(record := Some(rec), pc := Commit))
  }

  function DoResolve(s: State, i: nat, w: Worker): State {
    if !Free(s, DisputeRow(w.disp), i) then s
    else Take(s, DisputeRow(w.disp), i, w.(pc := Commit))
  }

  /** Upsert the two accounts, then add the uncommitted transaction if there is one. */
  function Booked(books: L.Books, w: Worker): L.Books {
    var b := L.Ensure(L.Ensure(books, Lines(w)[0].account), Lines(w)[1].account);
    if w.post.Some? then L.Append(b, w.post.value) else b
  }

  function Committed(db: Db, w: Worker): Db {
    match w.job
    case Process(id) =>
      if id in db.refunds then
        db.(books := Booked(db.books, w),
            refunds := db.refunds[id := db.refunds[id].(paymentRefundId := Some(w.answer.gatewayRefundId))])
      else db
    case Chargeback(e, _, _, _) =>
      var db' := db.(webhooks := db.webhooks[e := G.AUTHORIZE_NET]);
      if w.linked then
        db'.(books := Booked(db.books, w), disputes := db.disputes[w.disp := w.dis.(reversal := Some(w.txnId))])
      else db'
    case Outcome(d, won, _) =>
      if d in db.disputes then
        db.(books := Booked(db.books, w),
            disputes := db.disputes[d := db.disputes[d].(status := if won then WON else LOST)])
      else db
    case Confirm(h, _, _, _) =>
      db.(webhooks := db.webhooks[h := G.SOLANA],
          charges := db.charges + if w.record.Some? then [w.record.value] else [])
    case Approved(e, _, _, _, _) =>
      db.(webhooks := db.webhooks[e := G.AUTHORIZE_NET],
          charges := db.charges + if w.record.Some? then [w.record.value] else [])
    case Refunded(e, _, _, _) => db.(webhooks := db.webhooks[e := G.AUTHORIZE_NET])
    case Other(e) => db.(webhooks := db.webhooks[e := G.AUTHORIZE_NET])
    case Review(_, _) => db
    case Evidence(_) => db
  }

  function DoCommit(s: State, i: nat, w: Worker): State {
    s.(db := Committed(s.db, w), locks := Released(s.locks, i),
       workers := s.workers[i := w.(pc := if w.job.Process? then Final else Done, post := None, record := None)])
  }

  /** A single-row update outside any transaction; it waits for the row like any other. */
  function UpdateRefund(s: State, i: nat, w: Worker, id: string, r: Refund): State {
    if !Free(s, RefundRow(id), i) then s
    else Finish(s.(db := s.db.(refunds := s.db.refunds[id := r])), i, w)
  }

  function DoFinal(s: State, i: nat, w: Worker): State {
    if !w.job.Process? || w.job.refund !in s.db.refunds then s
    else UpdateRefund(s, i, w, w.job.refund, s.db.refunds[w.job.refund].(status := PROCESSED))
  }

  function DoCatch(s: State, i: nat, w: Worker): State {
    if !w.job.Process? || w.job.refund !in s.db.refunds then s
    else
      var r := s.db.refunds[w.job.refund];
      UpdateRefund(s, i, w, w.job.refund, r.(attempts := r.attempts + 1))
  }

  function DoWrite(s: State, i: nat, w: Worker): State {
    match w.job
    case Review(id, approve) =>
      if id !in s.db.refunds then s
      else UpdateRefund(s, i, w, id, s.db.refunds[id].(status := if approve then APPROVED else DENIED))
    case Evidence(d) =>
      if d !in s.db.disputes || !Free(s, DisputeRow(d), i) then s
      else Finish(s.(db := s.db.(disputes := s.db.disputes[d := s.db.disputes[d].(status := EVIDENCE_SUBMITTED)])), i, w)
    case _ => s
  }

  /** The next statement of call i. `mint` is the id the statement mints, if it mints one. */
  ghost function Advance(s: State, i: nat, mint: string): State
    requires i in s.workers
  {
    var w := s.workers[i];
    match w.pc
    case Start => DoStart(s, i, w)
    case CallGateway => DoCallGateway(s, i, w, mint)
    case Dedup => DoDedup(s, i, w)
    case Find => DoFind(s, i, w)
    case Insert => DoInsert(s, i, w, mint)
    case Check => DoCheck(s, i, w)
    case Post => DoPost(s, i, w, mint)
    case Link => DoLink(s, i, w)
    case KeyCheck => DoKeyCheck(s, i, w)
    case RowLock => DoRowLock(s, i, w)
    case Settle => DoSettle(s, i, w)
    case Record => DoRecord(s, i, w)
    case Resolve => DoResolve(s, i, w)
    case Commit => DoCommit(s, i, w)
    case Final => DoFinal(s, i, w)
    case Catch => DoCatch(s, i, w)
    case Write => DoWrite(s, i, w)
    case Done => s
  }

  /** The statement call i is waiting on throws. */
  function Throw(s: State, i: nat): State
    requires i in s.workers
  {
    var w := s.workers[i];
    match w.pc
    case Done => s
    case CallGateway => Fail(s, i, w)
    case Dedup | Find | Insert | Check | Post | Link | Record | Resolve | Commit => Fail(s, i, w)
    case KeyCheck | RowLock => AfterCredit(s, i, w, false)
    case Settle => AfterCredit(s.(locks := Drop(s.locks, CreditsRow(Credit(w).user))), i, w, false)
    case Start | Final | Catch | Write => Finish(s, i, w)
  }

  // ----- Runs -----

  datatype Request = Request(
    user: string, kind: RefundKind, amount: int, gateway: Option<G.Gateway>, charge: Option<string>, subscribed: bool)

  datatype Action =
    | Create(id: string, request: Request)
    | ReviewNow(refund: string, approve: bool)
    | RegisterCharge(gateway: G.Gateway, txn: string, amount: int)
    | Spawn(worker: nat, job: Job)
    | Step(worker: nat, mint: string)
    | FailCall(worker: nat)
    | LoseAnswer(worker: nat)
    | Crash(worker: nat)

  /** createRefundRequest: what is stored, unless the request is rejected. */
  function Accepted(db: Db, q: Request): Option<Refund> {
    if q.amount <= 0 || (q.kind == PAYMENT && (q.gateway.None? || !q.subscribed)) then None
    else
      var charge := if q.kind == PAYMENT && !Given(q.charge) && LatestCharge(db.charges, q.user, q.gateway.value).Some?
                    then LatestCharge(db.charges, q.user, q.gateway.value) else q.charge;
      Some(Refund(q.user, q.kind, q.amount, q.gateway, charge, PENDING, None, 0))
  }

  /**
   * What was committed last took effect, but its answer was lost and the call sees an error.
   * Everywhere else a later throw or a crash leaves the same rows; here the handler counts
   * an attempt.
   */
  function Unanswered(s: State, i: nat): State
    requires i in s.workers
  {
    var w := s.workers[i];
    if w.job.Process? && w.pc == Final && w.snap.paymentRefundId.None? then Move(s, i, w.(pc := Catch)) else s
  }

  /** One action; an action that cannot happen changes nothing. */
  ghost function Do(s: State, a: Action): State {
    match a
    case Create(id, q) =>
      if id in s.db.refunds || Accepted(s.db, q).None? then s
      else s.(db := s.db.(refunds := s.db.refunds[id := Accepted(s.db, q).value]))
    case ReviewNow(id, approve) =>
      if id !in s.db.refunds || s.db.refunds[id].status != PENDING || RefundRow(id) in s.locks then s
      else s.(db := s.db.(refunds := s.db.refunds[id := s.db.refunds[id].(status := if approve then APPROVED else DENIED)]))
    case RegisterCharge(g, txn, amount) =>
      s.(gate := s.gate.With(g, G.AfterRegister(g, s.gate.At(g), txn, amount)))
    case Spawn(i, job) => if i in s.workers then s else Move(s, i, Begin(job))
    case Step(i, mint) => if i in s.workers then Advance(s, i, mint) else s
    case FailCall(i) => if i in s.workers then Throw(s, i) else s
    case LoseAnswer(i) => if i in s.workers then Unanswered(s, i) else s
    case Crash(i) => if i in s.workers then Finish(s, i, s.workers[i]) else s
  }

  ghost function Run(s: State, acts: seq<Action>): State {
    if acts == [] then s else Do(Run(s, acts[..|acts| - 1]), acts[|acts| - 1])
  }

  /** No refunds, disputes, postings or deliveries yet; users may hold opening credits. */
  ghost predicate Initial(s: State, opening: map<string, int>) {
    && s.db == Db(map[], map[], s.db.books, C.Purse(opening, []), map[], [])
    && s.db.books.txns == [] && (forall a :: a in s.db.books.balances ==> s.db.books.balances[a] == 0)
    && (forall u :: C.Balance(opening, u) >= 0)
    && s.gate.an.refundLog == map[] && s.gate.sol.refundLog == map[]
    && s.locks == map[] && s.workers == map[]
  }
}
