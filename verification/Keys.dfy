/**
 * The idempotency keys of the money engine.
 *
 * Every ledger transaction and every credit transaction is written by one of a few
 * sources, and each source builds its key from an id it does not control. The keys are
 * compared as strings, so "one key, one effect" means "one source, one effect" only if
 * the string forms never collide; that is what the two lemmas below establish.
 */
module Keys {

  /** Who wrote a ledger transaction (the transaction's `metadata`). */
  datatype LedgerSource =
    | RefundOf(refund: string)
    | ReversalOf(charge: string)
    | WonOf(dispute: string)
    | LostOf(dispute: string)

  function LedgerKey(source: LedgerSource): string {
    match source
    case RefundOf(id) => "refund_" + id + "_ledger"
    case ReversalOf(t) => "chargeback_" + t + "_reversal_ledger"
    case WonOf(d) => "dispute_won_" + d + "_ledger"
    case LostOf(d) => "dispute_lost_" + d + "_fee_ledger"
  }

  /** Who wrote a credit transaction (the transaction's `metadata`). */
  datatype CreditSource =
    | RefundGrant(refund: string)       // CREDITS refund request
    | RefundDeduct(refund: string)      // PAYMENT refund request
    | ChargeGrant(charge: string)
    | ChargeReversal(charge: string)
    | ChargebackDeduct(charge: string)
    | WonGrant(dispute: string)
    | SolanaGrant(hash: string)

  function CreditKey(source: CreditSource): string {
    match source
    case RefundGrant(id) => "refund_" + id
    case RefundDeduct(id) => "refund_" + id
    case ChargeGrant(t) => "authorize_net_charge_" + t
    case ChargeReversal(t) => "authorize_net_refund_" + t
    case ChargebackDeduct(t) => "chargeback_" + t
    case WonGrant(d) => "dispute_won_" + d
    case SolanaGrant(h) => "solana_charge_" + h
  }

  /** The unique `gatewayDisputeId` a chargeback on `charge` is filed under. */
  function DisputeKey(charge: string): string {
    "an_dispute_" + charge
  }

  lemma Unwrap(prefix: string, id: string, suffix: string)
    ensures (prefix + id + suffix)[|prefix|..|prefix| + |id|] == id
    ensures |prefix + id + suffix| == |prefix| + |id| + |suffix|
    ensures forall k :: 0 <= k < |prefix| ==> (prefix + id + suffix)[k] == prefix[k]
  {
  }

  lemma SameForm(prefix: string, a: string, b: string, suffix: string)
    requires prefix + a + suffix == prefix + b + suffix
    ensures a == b
  {
    Unwrap(prefix, a, suffix);
    Unwrap(prefix, b, suffix);
  }

  /** The characters that tell the four ledger forms apart. */
  lemma LedgerTag(a: LedgerSource)
    ensures |LedgerKey(a)| > 8
    ensures a.RefundOf? <==> LedgerKey(a)[0] == 'r'
    ensures a.ReversalOf? <==> LedgerKey(a)[0] == 'c'
    ensures a.WonOf? ==> LedgerKey(a)[8] == 'w'
    ensures a.LostOf? ==> LedgerKey(a)[8] == 'l'
  {
  }

  /** Ledger keys are injective and the four forms never meet, whatever the ids are. */
  lemma LedgerKeysSeparate(a: LedgerSource, b: LedgerSource)
    ensures LedgerKey(a) == LedgerKey(b) <==> a == b
  {
    if LedgerKey(a) == LedgerKey(b) {
      LedgerTag(a);
      LedgerTag(b);
      match a
      case RefundOf(id) => SameForm("refund_", id, b.refund, "_ledger");
      case ReversalOf(t) => SameForm("chargeback_", t, b.charge, "_reversal_ledger");
      case WonOf(d) => SameForm("dispute_won_", d, b.dispute, "_ledger");
      case LostOf(d) => SameForm("dispute_lost_", d, b.dispute, "_fee_ledger");
    }
  }

  /** The refund request a credit source belongs to, when it belongs to one. */
  function Canonical(source: CreditSource): CreditSource {
    if source.RefundDeduct? then RefundGrant(source.refund) else source
  }

  lemma SamePrefix(prefix: string, a: string, b: string)
    requires prefix + a == prefix + b
    ensures a == b
  {
    assert (prefix + a)[|prefix|..] == a;
    assert (prefix + b)[|prefix|..] == b;
  }

  /** The characters that tell the credit forms apart. */
  lemma CreditTag(a: CreditSource)
    ensures |CreditKey(a)| >= 7
    ensures a.RefundGrant? || a.RefundDeduct? <==> CreditKey(a)[0] == 'r'
    ensures a.ChargebackDeduct? <==> CreditKey(a)[0] == 'c'
    ensures a.WonGrant? <==> CreditKey(a)[0] == 'd'
    ensures a.SolanaGrant? <==> CreditKey(a)[0] == 's'
    ensures a.ChargeGrant? ==> |CreditKey(a)| > 14 && CreditKey(a)[14] == 'c'
    ensures a.ChargeReversal? ==> |CreditKey(a)| > 14 && CreditKey(a)[14] == 'r'
  {
  }

  /**
   * Credit keys are injective and disjoint except for the one shared form `refund_{id}`:
   * a CREDITS grant and a PAYMENT deduction of the same request use the same key.
   */
  lemma CreditKeysSeparate(a: CreditSource, b: CreditSource)
    ensures CreditKey(a) == CreditKey(b) <==> Canonical(a) == Canonical(b)
  {
    if CreditKey(a) == CreditKey(b) {
      CreditTag(a);
      CreditTag(b);
      match a
      case RefundGrant(id) => SamePrefix("refund_", id, b.refund);
      case RefundDeduct(id) => SamePrefix("refund_", id, b.refund);
      case ChargeGrant(t) => SamePrefix("authorize_net_charge_", t, b.charge);
      case ChargeReversal(t) => SamePrefix("authorize_net_refund_", t, b.charge);
      case ChargebackDeduct(t) => SamePrefix("chargeback_", t, b.charge);
      case WonGrant(d) => SamePrefix("dispute_won_", d, b.dispute);
      case SolanaGrant(h) => SamePrefix("solana_charge_", h, b.hash);
    }
  }

  lemma DisputeKeysSeparate(a: string, b: string)
    ensures DisputeKey(a) == DisputeKey(b) <==> a == b
  {
    if DisputeKey(a) == DisputeKey(b) {
      SamePrefix("an_dispute_", a, b);
    }
  }
}
