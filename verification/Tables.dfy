/**
 * The tables the services share, the two gateways they call, and the configured depth.
 *
 * Services update these rows in place. A transaction remembers the rows it found and puts
 * them back when it throws; the credits rows are not among them, because the credits service
 * opens a transaction of its own.
 */
module Tables {
  import opened Prelude
  import opened Keys
  import opened Engine
  import opened Invariant
  import opened Commits
  import opened Theorems
  import opened Totals
  import opened Calls
  import S = Subscriptions
  import G = Gateways
  import L = Ledger
  import C = Credits

  /** The rows an open transaction can still put back. */
  datatype Saved = Saved(refunds: map<string, Refund>, disputes: map<string, Dispute>, books: L.Books,
                         webhooks: map<string, G.Gateway>, charges: seq<ChargeRecord>, subscriptions: S.Rows)

  class Database {
    var refunds: map<string, Refund>
    var disputes: map<string, Dispute>
    var webhooks: map<string, G.Gateway>
    var charges: seq<ChargeRecord>
    const ledger: L.LedgerService
    const credits: C.CreditsService
    const authorizeNet: G.AuthorizeNetGateway
    const solana: G.SolanaGateway
    const subscriptions: S.SubscriptionsService
    const required: int
    ghost const opening: map<string, int>

    ghost function View(): Db
      reads this, ledger, credits
    {
      Db(refunds, disputes, ledger.View(), credits.View(), webhooks, charges)
    }

    ghost function Gates(): Gate
      reads this, authorizeNet, solana
    {
      Gate(authorizeNet.View(), solana.View())
    }

    /** The tables are those at the end of some run of the engine, with nothing held. */
    ghost predicate Valid()
      reads this, ledger, credits, authorizeNet, solana, subscriptions
    {
      Reached(View(), Gates(), required, opening) && S.Sound(subscriptions.View())
    }

    constructor (opening: map<string, int>, required: int)
      requires forall u :: u in opening ==> opening[u] >= 0
      ensures Valid() && this.required == required && this.opening == opening
      ensures fresh(ledger) && fresh(credits) && fresh(authorizeNet) && fresh(solana) && fresh(subscriptions)
      ensures View() == Db(map[], map[], L.Books(map[], []), C.Purse(opening, []), map[], [])
    {
      refunds, disputes, webhooks, charges := map[], map[], map[], [];
      ledger := new L.LedgerService();
      credits := new C.CreditsService(opening);
      authorizeNet := new G.AuthorizeNetGateway();
      solana := new G.SolanaGateway();
      subscriptions := new S.SubscriptionsService();
      this.required := required;
      this.opening := opening;
      new;
      EmptyReached(View(), Gates(), required, opening);
    }

    method Save() returns (s: Saved)
      ensures s == Saved(refunds, disputes, ledger.View(), webhooks, charges, subscriptions.View())
    {
      s := Saved(refunds, disputes, L.Books(ledger.balances, ledger.txns), webhooks, charges,
                 S.Rows(subscriptions.subs, subscriptions.links));
    }

    method Rollback(s: Saved)
      modifies this, ledger, subscriptions
      ensures View() == Db(s.refunds, s.disputes, s.books, credits.View(), s.webhooks, s.charges)
      ensures subscriptions.View() == s.subscriptions
    {
      refunds, disputes, webhooks, charges := s.refunds, s.disputes, s.webhooks, s.charges;
      ledger.Restore(s.books);
      subscriptions.Restore(s.subscriptions);
    }

    /** A charge the gateway reports to its own memory. */
    method RegisterCharge(g: G.Gateway, txn: string, amount: int)
      requires Valid()
      modifies authorizeNet, solana
      ensures Valid()
      ensures Gates() == old(Gates()).With(g, G.AfterRegister(g, old(Gates()).At(g), txn, amount))
    {
      DoneReached(View(), Gates(), required, Action.RegisterCharge(g, txn, amount), opening);
      match g
      case AUTHORIZE_NET => authorizeNet.RegisterCharge(txn, amount);
      case SOLANA => solana.RegisterCharge(txn, amount);
    }

    /** A refund at the gateway the request names. */
    method RefundAt(g: G.Gateway, txn: string, amount: int, key: string, suffix: string) returns (r: G.Refunded)
      modifies authorizeNet, solana
      ensures r == G.Answer(g, old(Gates()).At(g), txn, amount, key, suffix)
      ensures Gates() == old(Gates()).With(g, G.AfterRefund(g, old(Gates()).At(g), txn, amount, key, suffix))
      ensures g == G.AUTHORIZE_NET ==> solana.View() == old(solana.View())
      ensures g == G.SOLANA ==> authorizeNet.View() == old(authorizeNet.View())
    {
      match g
      case AUTHORIZE_NET => r := authorizeNet.RefundCharge(txn, amount, key, suffix);
      case SOLANA => r := solana.RefundCharge(txn, amount, key, suffix);
    }

    /** An upsert by gateway and transaction id with an empty update. */
    method RecordCharge(record: ChargeRecord)
      modifies this
      ensures View() == old(View()).(charges :=
                if HasCharge(old(charges), record.gateway, record.txn) then old(charges) else old(charges) + [record])
    {
      for k := 0 to |charges|
        invariant charges == old(charges) && View() == old(View())
        invariant forall j :: 0 <= j < k ==> !(charges[j].gateway == record.gateway && charges[j].txn == record.txn)
      {
        if charges[k].gateway == record.gateway && charges[k].txn == record.txn {
          return;
        }
      }
      charges := charges + [record];
    }

    /**
     * The ledger part of a transaction: the accounts `first` and `second`, then the posting
     * under the source's key. `throws` says which of its statements throw; on any failure
     * the rows are left for the transaction to put back.
     */
    method Record(source: LedgerSource, lines: seq<L.Entry>, first: L.Account, second: L.Account, txn: string,
        throws: set<Pc>)
      returns (posted: Option<string>)
      requires |lines| == 2 && lines[0].amount == lines[1].amount && lines[0].side == L.DEBIT && lines[1].side == L.CREDIT
      requires {first, second} == {lines[0].account, lines[1].account}
      modifies ledger
      ensures posted.Some? <==> LedgerSucceeds(old(ledger.View()), source, lines[0].amount, throws)
      ensures posted.Some? ==> ledger.View() == Recorded(old(ledger.View()), source, lines, txn)
      ensures posted.Some? && !L.HasKey(old(ledger.txns), LedgerKey(source)) ==> posted == Some(txn)
    {
      ghost var before := ledger.View();
      var a := ledger.GetOrCreateAccount(first.owner, first.kind);
      var b := ledger.GetOrCreateAccount(second.owner, second.kind);
      EnsureEither(before, first, second, lines[0].account, lines[1].account);
      if Check in throws {
        return None;
      }
      ghost var ready := ledger.View();
      TwoLines(lines);
      var r := ledger.RecordTransaction(txn, Some(LedgerKey(source)), Some(source), lines, true);
      match r
      case Hit(t) => return Some(t.id);
      case Rejected(_) => return None;
      case Posted(t) => return if Post in throws then None else Some(txn);
    }
  }

  lemma EmptyReached(db: Db, gate: Gate, required: int, opening: map<string, int>)
    requires db == Db(map[], map[], L.Books(map[], []), C.Purse(opening, []), map[], [])
    requires gate == Gate(G.GatewayState(map[], map[]), G.GatewayState(map[], map[]))
    requires forall u :: u in opening ==> opening[u] >= 0
    ensures Reached(db, gate, required, opening)
  {
    var s := State(db, gate, map[], map[], required);
    RunNone(s);
    assert Initial(s, opening) && Ends(s, [], db, gate, required);
  }

  /** What every method needs to know of the credits rows. */
  lemma PurseSound(db: Db, gate: Gate, required: int, opening: map<string, int>)
    requires Reached(db, gate, required, opening)
    ensures C.Sound(db.purse, opening)
  {
    hide C.Sound, L.Sound, TxnOk, RefundOk, DisputeOk, CreditOk, SettledOk, GateOk, DisputesUnique, ChargesUnique, Reached;
    ReachedRowsOk(db, gate, required, opening);
  }

  lemma EnsureEither(b: L.Books, x: L.Account, y: L.Account, p: L.Account, q: L.Account)
    requires {x, y} == {p, q}
    ensures L.Ensure(L.Ensure(b, x), y) == L.Ensure(L.Ensure(b, p), q)
    ensures p in L.Ensure(L.Ensure(b, x), y).balances && q in L.Ensure(L.Ensure(b, x), y).balances
  {
    assert x in {p, q} && y in {p, q} && p in {x, y} && q in {x, y};
    assert L.Ensure(L.Ensure(b, x), y).balances == L.Ensure(L.Ensure(b, p), q).balances;
  }

  lemma TwoLines(lines: seq<L.Entry>)
    requires |lines| == 2 && lines[0].amount == lines[1].amount && lines[0].side == L.DEBIT && lines[1].side == L.CREDIT
    ensures L.Balanced(lines) <==> lines[0].amount > 0
  {
    if lines[0].amount > 0 {
      assert lines == [lines[0], lines[1]];
      TwoLinesBalance(lines[0].account, lines[1].account, lines[0].amount);
    }
  }

  // ----- What the engine's theorems say of the tables -----

  /** Whatever calls were made on the tables, and wherever they threw: a payment refund moved its money once or not at all. */
  lemma TablesRefundExactlyOnce(db: Database, id: string)
    requires db.Valid() && id in db.refunds && db.refunds[id].kind == PAYMENT
    ensures var r := db.refunds[id];
            && (forall a :: MovedBy(db.ledger.txns, RefundOf(id), a)
                  == if r.paymentRefundId.Some? && (a == L.Account("test-admin-1", L.REVENUE) || a == L.Account(r.user, L.ASSET))
                     then -r.amount else 0)
            && (r.paymentRefundId.Some? ==> GatewayPaid(db.Gates(), r, id, r.paymentRefundId.value))
            && (r.status == PROCESSED ==> r.paymentRefundId.Some?)
            && (WroteAny(db.credits.log, RefundDeduct(id)) ==> PaidSomehow(db.Gates(), r, id))
            && C.Count(db.credits.log, CreditKey(RefundDeduct(id))) <= 1
  {
    hide Initial, Run, MovedBy, CreditKey, C.Count, GatewayPaid, WroteAny, PaidSomehow;
    var s: State, acts: seq<Action> :| Initial(s, db.opening) && Ends(s, acts, db.View(), db.Gates(), db.required);
    PaymentRefundIsExactlyOnce(s, acts, id, db.opening);
  }

  /** And a chargeback has one dispute, one reversal that it names, and at most one deduction. */
  lemma TablesChargebackExactlyOnce(db: Database, charge: string)
    requires db.Valid()
    ensures (forall d, d' | d in db.disputes && d' in db.disputes ::
               db.disputes[d].charge == charge == db.disputes[d'].charge ==> d == d')
    ensures (forall d :: d in db.disputes && db.disputes[d].charge == charge ==>
               db.disputes[d].reversal.Some? && ReversedBy(db.ledger.txns, db.disputes[d]))
    ensures (forall d, a :: d in db.disputes && db.disputes[d].charge == charge ==>
               MovedBy(db.ledger.txns, ReversalOf(charge), a)
               == if a == L.Account("test-admin-1", L.REVENUE) || a == L.Account(db.disputes[d].user, L.ASSET)
                  then -db.disputes[d].amount else 0)
    ensures C.Count(db.credits.log, CreditKey(ChargebackDeduct(charge))) <= 1
  {
    hide Initial, Run, MovedBy, CreditKey, C.Count, ReversedBy;
    var s: State, acts: seq<Action> :| Initial(s, db.opening) && Ends(s, acts, db.View(), db.Gates(), db.required);
    ChargebackIsExactlyOnce(s, acts, charge, db.opening);
  }

  /** The books balance and every credit balance is its opening plus its log. */
  lemma TablesBalance(db: Database)
    requires db.Valid()
    ensures L.SumOf(db.ledger.balances, {L.ASSET, L.EXPENSE})
         == L.SumOf(db.ledger.balances, {L.LIABILITY, L.REVENUE, L.EQUITY})
    ensures C.Sound(db.credits.View(), db.opening)
  {
    hide Initial, Run, L.Sound, C.Sound;
    var s: State, acts: seq<Action> :| Initial(s, db.opening) && Ends(s, acts, db.View(), db.Gates(), db.required);
    LedgerAlwaysBalances(s, acts, db.opening);
    CreditsAlwaysReconcile(s, acts, db.opening);
  }
}
