/**
 * The two webhook controllers (gateways/authorize-net/authorize-net-webhook.controller.ts
 * from after the signature check, gateways/solana/solana-confirmation.controller.ts).
 *
 * The dedup row and the effects of an event are one transaction; the credits call inside is
 * another. A delivery whose id is in the table already is acknowledged and skipped.
 */
module WebhookControllers {
  import opened Prelude
  import opened Keys
  import opened Engine
  import opened Invariant
  import opened Calls
  import opened DeliveryCalls
  import opened Tables
  import opened Receipts
  import D = DisputesService
  import G = Gateways
  import L = Ledger
  import C = Credits
  import S = Subscriptions

  /** What an event writes to the subscription rows besides: a renewal goes with a charge record, a cancellation alone. */
  predicate Carries(job: Job, change: Option<S.Call>) {
    change.Some? ==>
      match change.value
      case FromGateway(user, _, link, _, _, _) => job.Approved? && job.credits.None? && job.user == user && link.gateway == G.AUTHORIZE_NET
      case CancelImmediately(_, _) => job.Other?
      case _ => false
  }

  /** The subscription rows with the event's change, if it carries one. */
  function Changed(r: S.Rows, change: Option<S.Call>): S.Rows {
    if change.Some? then S.Serve(r, change.value) else r
  }

  /** A confirmation that names a plan activates it, under its reference or else its hash. */
  function Activation(job: Job, plan: Option<S.Plan>, reference: Option<string>, now: int): Option<S.Call>
    requires job.Confirm?
  {
    if plan.None? then None
    else Some(S.FromGateway(job.user, plan.value, S.GatewayLink(G.SOLANA, if Given(reference) then reference.value else job.hash, job.user),
                            None, None, now))
  }

  datatype Reply = Skipped | Taken | Failed

  /** The answer to a delivery: applied, acknowledged without effect, or an error to retry. */
  ghost function ReplyTo(db: Db, job: Job, required: int, m: Mints, throws: set<Pc>): Reply
    requires WebhookOf(job).Some?
  {
    if WebhookOf(job).value == "" then Failed
    else if job.Confirm? && job.depth < required then Skipped
    else if Start in throws then Failed
    else if !Fresh(db, job, required) then Skipped
    else if Deliver(db, job, required, m, throws).1 then Taken
    else Failed
  }

  class AuthorizeNetWebhookController {
    const db: Database
    const disputes: D.DisputesService

    constructor (db: Database)
      ensures this.db == db && disputes.db == db
    {
      this.db := db;
      disputes := new D.DisputesService(db);
    }

    /** charge.approved: credits for a credit purchase, then the charge record. */
    method ApplyApproved(job: Job, throws: set<Pc>) returns (ok: bool)
      requires job.Approved? && C.Sound(db.credits.View(), db.opening)
      modifies db, db.credits
      ensures (db.View(), ok) == Purchase(old(db.View()), job, throws)
      ensures ok ==> ApprovedDone(old(db.View()), db.View(), job.charge, job.user, job.credits, job.cents)
    {
      hide C.Sound, CreditKey, ApprovedDone;
      Receipt(db.View(), job, Mints("", "", ""), throws);
      if job.credits.Some? {
        if KeyCheck in throws {
          return false;
        }
        var a := db.credits.AddCredits(job.user, job.credits.value, C.PURCHASE, CreditKey(ChargeGrant(job.charge)),
                                       Some(ChargeGrant(job.charge)), db.opening);
        if a.Refused? {
          return false;
        }
      }
      if Record in throws {
        return false;
      }
      if job.charge != "" && job.user != "" {
        db.RecordCharge(ChargeRecord(G.AUTHORIZE_NET, job.charge, job.user, job.cents));
      }
      return true;
    }

    /** charge.refunded: takes the purchased credits back if the balance allows it. */
    method ApplyRefunded(job: Job, throws: set<Pc>)
      requires job.Refunded? && C.Sound(db.credits.View(), db.opening)
      modifies db.credits
      ensures db.View() == Reversal(old(db.View()), job, throws).0
      ensures RefundedDone(old(db.View()), db.View(), job.charge, job.user, job.taken, throws)
    {
      hide C.Sound, CreditKey, RefundedDone;
      Receipt(db.View(), job, Mints("", "", ""), throws);
      if !(KeyCheck in throws) {
        var a := db.credits.DeductCredits(job.user, job.taken, Some(CreditKey(ChargeReversal(job.charge))),
                                          Some(ChargeReversal(job.charge)), db.opening);
      }
    }

    /** chargeback.received */
    method ApplyChargeback(job: Job, m: Mints, throws: set<Pc>) returns (ok: bool)
      requires job.Chargeback? && m.dispute !in db.disputes && disputes.db == db && C.Sound(db.credits.View(), db.opening)
      requires !HasDispute(db.disputes, DisputeKey(job.charge)) ==> !L.HasKey(db.ledger.txns, LedgerKey(ReversalOf(job.charge)))
      requires forall d :: d in db.disputes && db.disputes[d].gatewayDisputeId == DisputeKey(job.charge) ==> db.disputes[d].reversal.Some?
      modifies db, db.ledger, db.credits
      ensures ok == Chargebacked(old(db.View()), job, m, throws).1
      ensures ok ==> db.View() == Chargebacked(old(db.View()), job, m, throws).0
      ensures db.credits.View() == Chargebacked(old(db.View()), job, m, throws).0.purse
      ensures ok ==> ChargebackDone(old(db.View()), db.View(), job.charge, job.user, job.amount, m, throws)
    {
      hide ChargebackDone, C.Sound, CreditKey, LedgerKey, DisputeKey, LedgerSucceeds, Recorded, L.HasKey;
      Receipt(db.View(), job, m, throws);
      if Find in throws {
        return false;
      }
      var existing := disputes.FindDispute(DisputeKey(job.charge));
      if existing.None? && Insert in throws {
        return false;
      }
      var d := disputes.CreateDispute(m.dispute, job.user, DisputeKey(job.charge), job.charge, job.amount);
      if db.disputes[d].reversal.Some? {
        return true;
      }
      var posted := db.Record(ReversalOf(job.charge), ReversalLines(job.user, job.amount), Asset(job.user), Revenue(), m.txn, throws);
      if posted.None? || Link in throws {
        return false;
      }
      db.disputes := db.disputes[d := db.disputes[d].(reversal := posted)];
      if !(KeyCheck in throws) {
        var a := db.credits.DeductCredits(job.user, job.amount, Some(CreditKey(ChargebackDeduct(job.charge))),
                                          Some(ChargebackDeduct(job.charge)), db.opening);
      }
      return true;
    }

    /** createOrUpdateFromGateway for a renewal, cancelImmediately for a cancellation or a failed charge. */
    method ChangeSubscription(change: S.Call)
      requires change.FromGateway? || change.CancelImmediately?
      modifies db.subscriptions
      ensures SubscriptionDone(old(db.subscriptions.View()), db.subscriptions.View(), Some(change))
      ensures db.subscriptions.View() == S.Serve(old(db.subscriptions.View()), change)
      ensures old(S.Sound(db.subscriptions.View())) ==> S.Sound(db.subscriptions.View())
    {
      match change
      case FromGateway(user, plan, link, periodStart, periodEnd, now) =>
        db.subscriptions.CreateOrUpdateFromGateway(user, plan, link, periodStart, periodEnd, now);
      case CancelImmediately(user, now) =>
        var updated := db.subscriptions.CancelImmediately(user, now);
      case _ =>
    }

    /** The subscription rows first, then everything else. */
    method ApplyEvent(job: Job, change: Option<S.Call>, m: Mints, throws: set<Pc>) returns (ok: bool)
      requires Carries(job, change)
      requires WebhookOf(job).Some? && !job.Confirm? && m.dispute !in db.disputes && disputes.db == db && C.Sound(db.credits.View(), db.opening)
      requires job.Chargeback? && !HasDispute(db.disputes, DisputeKey(job.charge)) ==> !L.HasKey(db.ledger.txns, LedgerKey(ReversalOf(job.charge)))
      requires job.Chargeback? ==>
        forall d :: d in db.disputes && db.disputes[d].gatewayDisputeId == DisputeKey(job.charge) ==> db.disputes[d].reversal.Some?
      modifies db, db.ledger, db.credits, db.subscriptions
      ensures SubscriptionDone(old(db.subscriptions.View()), db.subscriptions.View(), change)
      ensures db.subscriptions.View() == Changed(old(db.subscriptions.View()), change)
      ensures old(S.Sound(db.subscriptions.View())) ==> S.Sound(db.subscriptions.View())
      ensures ok ==> EventDone(old(db.View()), db.View(), job, m, throws)
      ensures ok == Applied(old(db.View()), job, m, throws).1
      ensures ok ==> db.View() == Applied(old(db.View()), job, m, throws).0
      ensures db.credits.View() == Applied(old(db.View()), job, m, throws).0.purse
    {
      hide Purchase, Reversal, Chargebacked, ApprovedDone, RefundedDone, ChargebackDone, SubscriptionDone, C.Sound, L.HasKey, LedgerKey, DisputeKey;
      NoChange(db.subscriptions.View());
      if change.Some? {
        ChangeSubscription(change.value);
      }
      match job
      case Approved(_, _, _, _, _) => ok := ApplyApproved(job, throws);
      case Refunded(_, _, _, _) => ApplyRefunded(job, throws); ReversalApplies(old(db.View()), job, throws); ok := true;
      case Chargeback(_, _, _, _) => ok := ApplyChargeback(job, m, throws);
      case _ => ok := true;
    }

    /**
     * One delivery. It is applied as a whole or, but for its credits, not at all; a delivery
     * whose id is known changes nothing; and an applied one leaves its id in the table.
     */
    method HandleWebhook(job: Job, change: Option<S.Call>, m: Mints, throws: set<Pc>) returns (reply: Reply)
      requires db.Valid() && disputes.db == db && WebhookOf(job).Some? && !job.Confirm? && Carries(job, change)
      requires !L.HasId(db.ledger.txns, m.txn) && m.dispute !in db.disputes
      modifies db, db.ledger, db.credits, db.subscriptions
      ensures db.View() == Deliver(old(db.View()), job, db.required, m, throws).0
      ensures reply == ReplyTo(old(db.View()), job, db.required, m, throws)
      ensures Completes(old(db.View()), db.Gates(), db.required, job, m, throws, db.View(), db.Gates())
      ensures reply.Taken? ==> DeliveryDone(old(db.View()), db.View(), job, db.required, m, throws)
      ensures SubscriptionDone(old(db.subscriptions.View()), db.subscriptions.View(), if reply.Taken? then change else None)
      ensures reply.Skipped? <==> WebhookOf(job).value != "" && Start !in throws && WebhookOf(job).value in old(db.webhooks)
      ensures reply.Taken? <==> Deliver(old(db.View()), job, db.required, m, throws).1
      ensures reply.Skipped? ==> db.View() == old(db.View())
      ensures reply.Failed? ==> db.View() == old(db.View()).(purse := db.credits.View())
      ensures db.subscriptions.View()
           == if reply.Taken? then Changed(old(db.subscriptions.View()), change) else old(db.subscriptions.View())
      ensures db.Valid()
    {
      hide Reached, RowsOk, Changed, S.Sound, SubscriptionDone, DeliveryDone, EventDone,
           Completes, L.HasId, C.Sound, Applied, L.HasKey, LedgerKey, DisputeKey;
      ghost var before := db.View();
      ReachedRowsOk(before, db.Gates(), db.required, db.opening);
      DeliverCompletes(before, db.Gates(), db.required, job, m, throws, db.opening);
      CompletedReached(before, db.Gates(), db.required, job, m, throws, Deliver(before, job, db.required, m, throws).0, db.Gates(), db.opening);
      ChargebackFacts(before, db.Gates(), job, db.opening);
      WholeReceipt(before, db.Gates(), db.required, job, m, throws, db.opening);
      NoChange(db.subscriptions.View());
      PurseSound(before, db.Gates(), db.required, db.opening);
      var event := WebhookOf(job).value;
      if Start in throws || event == "" {
        return Failed;
      }
      if event in db.webhooks {
        return Skipped;
      }
      if Dedup in throws {
        return Failed;
      }
      var saved := db.Save();
      db.webhooks := db.webhooks[event := G.AUTHORIZE_NET];
      AppliedKeepsMark(Marked(before, job), job, m, throws);
      var ok := ApplyEvent(job, change, m, throws);
      if !ok || Commit in throws {
        db.Rollback(saved);
        return Failed;
      }
      return Taken;
    }
  }

  class SolanaConfirmationController {
    const db: Database

    constructor (db: Database)
      ensures this.db == db
    {
      this.db := db;
    }

    /** The plan if there is one, then credits, then the charge record. */
    method ApplyConfirmation(job: Job, plan: Option<S.Plan>, reference: Option<string>, now: int, throws: set<Pc>) returns (ok: bool)
      requires job.Confirm? && C.Sound(db.credits.View(), db.opening)
      modifies db, db.credits, db.subscriptions
      ensures PlanDone(old(db.subscriptions.View()), db.subscriptions.View(), job, plan, reference, now)
      ensures db.subscriptions.View() == Changed(old(db.subscriptions.View()), Activation(job, plan, reference, now))
      ensures old(S.Sound(db.subscriptions.View())) ==> S.Sound(db.subscriptions.View())
      ensures (db.View(), ok) == Purchase(old(db.View()), job, throws)
      ensures ok ==> ConfirmDone(old(db.View()), db.View(), job.hash, job.user, job.amount)
    {
      hide C.Sound, CreditKey, ConfirmDone;
      Receipt(db.View(), job, Mints("", "", ""), throws);
      if plan.Some? {
        var link := S.GatewayLink(G.SOLANA, if Given(reference) then reference.value else job.hash, job.user);
        db.subscriptions.CreateOrUpdateFromGateway(job.user, plan.value, link, None, None, now);
      }
      if KeyCheck in throws {
        return false;
      }
      var a := db.credits.AddCredits(job.user, job.amount, C.PURCHASE, CreditKey(SolanaGrant(job.hash)), Some(SolanaGrant(job.hash)), db.opening);
      if a.Refused? || Record in throws {
        return false;
      }
      db.RecordCharge(ChargeRecord(G.SOLANA, job.hash, job.user, job.amount));
      return true;
    }

    /** One confirmation: too shallow or known, it changes nothing; otherwise it settles its hash or is to be retried. */
    method HandleConfirmation(eventId: string, job: Job, plan: Option<S.Plan>, reference: Option<string>, now: int, m: Mints,
        throws: set<Pc>) returns (reply: Reply)
      requires db.Valid() && job.Confirm? && !L.HasId(db.ledger.txns, m.txn) && m.dispute !in db.disputes
      modifies db, db.credits, db.ledger, db.subscriptions
      ensures eventId == "" ==> reply.Failed? && db.View() == old(db.View())
      ensures reply.Skipped? <==>
                eventId != "" && job.hash != "" && (job.depth < db.required || (Start !in throws && job.hash in old(db.webhooks)))
      ensures reply.Taken? <==> eventId != "" && Deliver(old(db.View()), job, db.required, m, throws).1
      ensures eventId != "" ==>
                && db.View() == Deliver(old(db.View()), job, db.required, m, throws).0
                && reply == ReplyTo(old(db.View()), job, db.required, m, throws)
                && Completes(old(db.View()), db.Gates(), db.required, job, m, throws, db.View(), db.Gates())
      ensures db.subscriptions.View()
           == if reply.Taken? then Changed(old(db.subscriptions.View()), Activation(job, plan, reference, now))
              else old(db.subscriptions.View())
      ensures reply.Taken? ==> eventId != "" && DeliveryDone(old(db.View()), db.View(), job, db.required, m, throws)
      ensures reply.Taken? && !C.HasKey(old(db.credits.log), "solana_charge_" + job.hash) ==>
                && db.credits.balances
                   == old(db.credits.balances)[job.user :=
                        old(if job.user in db.credits.balances then db.credits.balances[job.user] else 0) + job.amount]
                && db.credits.log
                   == old(db.credits.log)
                    + [C.CreditTxn(job.user, job.amount, C.PURCHASE, Some("solana_charge_" + job.hash), Some(SolanaGrant(job.hash)))]
      ensures if reply.Taken? then PlanDone(old(db.subscriptions.View()), db.subscriptions.View(), job, plan, reference, now)
              else db.subscriptions.View() == old(db.subscriptions.View())
      ensures job.depth < db.required ==> db.View() == old(db.View())
      ensures reply.Taken? ==> job.hash in db.webhooks && db.webhooks[job.hash] == G.SOLANA
      ensures db.Valid()
    {
      hide Activation, PlanDone, DeliveryDone, Reached, RowsOk, Completes, L.HasId, C.Sound, Purchase, Changed, S.Sound;
      ghost var before := db.View();
      ReachedRowsOk(before, db.Gates(), db.required, db.opening);
      DeliverCompletes(before, db.Gates(), db.required, job, m, throws, db.opening);
      CompletedReached(before, db.Gates(), db.required, job, m, throws, Deliver(before, job, db.required, m, throws).0, db.Gates(), db.opening);
      PurseSound(before, db.Gates(), db.required, db.opening);
      WholeReceipt(before, db.Gates(), db.required, job, m, throws, db.opening);
      ConfirmedOnce(before, Deliver(before, job, db.required, m, throws).0, job, db.required, m, throws);
      if eventId == "" || job.hash == "" {
        return Failed;
      }
      if job.depth < db.required {
        return Skipped;
      }
      if Start in throws {
        return Failed;
      }
      if job.hash in db.webhooks {
        return Skipped;
      }
      if Dedup in throws {
        return Failed;
      }
      var saved := db.Save();
      db.webhooks := db.webhooks[job.hash := G.SOLANA];
      AppliedKeepsMark(Marked(before, job), job, m, throws);
      var ok := ApplyConfirmation(job, plan, reference, now, throws);
      if !ok || Commit in throws {
        db.Rollback(saved);
        return Failed;
      }
      return Taken;
    }
  }

  /** What an event does to the subscription rows: its own user's row and link, and nobody else's. */
  ghost predicate SubscriptionDone(r: S.Rows, r': S.Rows, change: Option<S.Call>) {
    match change
    case Some(FromGateway(user, plan, link, periodStart, periodEnd, now)) =>
      && r'.links == r.links[user := link]
      && r'.subs == r.subs[user := S.Subscription(S.ACTIVE, plan, if periodStart.Some? then periodStart.value else now,
                                                  if periodEnd.Some? then periodEnd.value else now + 2592000000, false, None)]
    case Some(CancelImmediately(user, now)) =>
      && r'.links == r.links
      && r'.subs == if user !in r.subs then r.subs
                    else r.subs[user := S.Subscription(S.CANCELED, S.BASIC, r.subs[user].periodStart, r.subs[user].periodEnd, false, Some(now))]
    case _ => r' == r
  }

  /** A confirmation with a plan puts its user on it for thirty days. */
  ghost predicate PlanDone(r: S.Rows, r': S.Rows, job: Job, plan: Option<S.Plan>, reference: Option<string>, now: int)
    requires job.Confirm?
  {
    if plan.None? then r' == r
    else
      && r'.subs == r.subs[job.user := S.Subscription(S.ACTIVE, plan.value, now, now + 2592000000, false, None)]
      && r'.links == r.links[job.user := S.GatewayLink(G.SOLANA,
           if reference.Some? && reference.value != "" then reference.value else job.hash, job.user)]
  }

  lemma NoChange(r: S.Rows)
    ensures SubscriptionDone(r, r, None)
  {
  }

  /** What an applied event has written, inside its transaction. */
  lemma Receipt(db: Db, job: Job, m: Mints, throws: set<Pc>)
    requires WebhookOf(job).Some?
    requires job.Chargeback? && !HasDispute(db.disputes, DisputeKey(job.charge)) ==> !L.HasKey(db.books.txns, LedgerKey(ReversalOf(job.charge)))
    ensures Applied(db, job, m, throws).1 ==> EventDone(db, Applied(db, job, m, throws).0, job, m, throws)
  {
    hide Applied, EventDone, DisputeKey, LedgerKey;
    if Applied(db, job, m, throws).1 {
      EventReceipt(db, job, m, throws);
    }
  }

  lemma WholeReceipt(db: Db, gate: Gate, required: int, job: Job, m: Mints, throws: set<Pc>, opening: map<string, int>)
    requires Reached(db, gate, required, opening) && WebhookOf(job).Some?
    ensures Deliver(db, job, required, m, throws).1 ==> DeliveryDone(db, Deliver(db, job, required, m, throws).0, job, required, m, throws)
  {
    hide Reached, Deliver, DeliveryDone;
    ReachedRowsOk(db, gate, required, opening);
    if Deliver(db, job, required, m, throws).1 {
      DeliveryReceipt(db, gate, job, required, m, throws, opening);
    }
  }

  /** The credits that a confirmation grants the first time. */
  lemma ConfirmedOnce(db: Db, db': Db, job: Job, required: int, m: Mints, throws: set<Pc>)
    requires job.Confirm?
    ensures DeliveryDone(db, db', job, required, m, throws) && !C.HasKey(db.purse.log, "solana_charge_" + job.hash) ==>
              && db'.purse.balances
                 == db.purse.balances[job.user := (if job.user in db.purse.balances then db.purse.balances[job.user] else 0) + job.amount]
              && db'.purse.log
                 == db.purse.log + [C.CreditTxn(job.user, job.amount, C.PURCHASE, Some("solana_charge_" + job.hash), Some(SolanaGrant(job.hash)))]
              && job.hash in db'.webhooks && db'.webhooks[job.hash] == G.SOLANA
  {
    hide C.HasKey;
  }

  lemma ReversalApplies(db: Db, job: Job, throws: set<Pc>)
    requires job.Refunded?
    ensures Reversal(db, job, throws).1
  {
  }

  /** Applying an event leaves the table of ids alone. */
  lemma AppliedKeepsMark(db: Db, job: Job, m: Mints, throws: set<Pc>)
    requires WebhookOf(job).Some?
    ensures Applied(db, job, m, throws).0.webhooks == db.webhooks
  {
    hide Credited, CreditSucceeds, LedgerSucceeds, Recorded, ChargesWith, CallOf;
  }

  /** A filed dispute has its reversal, and a charge without a dispute has none. */
  lemma ChargebackFacts(db: Db, gate: Gate, job: Job, opening: map<string, int>)
    requires RowsOk(db, gate, opening)
    ensures job.Chargeback? && !HasDispute(db.disputes, DisputeKey(job.charge)) ==> !L.HasKey(db.books.txns, LedgerKey(ReversalOf(job.charge)))
    ensures forall d :: d in db.disputes ==> db.disputes[d].reversal.Some?
  {
    hide LedgerKey, DisputeKey, L.HasKey, HasDispute, L.Sound, C.Sound;
    if job.Chargeback? && !HasDispute(db.disputes, DisputeKey(job.charge)) {
      NoReversalYet(db, gate, opening, job.charge);
    }
    forall d | d in db.disputes ensures db.disputes[d].reversal.Some? {
      assert DisputeOk(db, db.disputes[d]);
    }
  }
}
