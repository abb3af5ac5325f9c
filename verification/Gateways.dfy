/**
 * The two gateway adapters (authorize-net.gateway.ts, solana.gateway.ts).
 *
 * Both keep a refund log in memory and answer a repeated idempotency key from it. They
 * differ in what they do with the charge a refund names, and only the Authorize.net one
 * looks at the charge's status. Both refine one specification: a write-once map from
 * idempotency key to the first answer given.
 */
module Gateways {

  datatype Gateway = AUTHORIZE_NET | SOLANA

  datatype ChargeStatus = OK | PENDING | CONFIRMED | REFUNDED

  datatype Charge = Charge(amount: int, status: ChargeStatus)

  datatype Refunded = Refunded(gatewayRefundId: string, refundedAmount: int)

  datatype GatewayState = GatewayState(charges: map<string, Charge>, refundLog: map<string, Refunded>)

  function FreshId(g: Gateway, suffix: string): string {
    match g
    case AUTHORIZE_NET => "an_refund_" + suffix
    case SOLANA => "sol_refund_" + suffix
  }

  /** What a refund that is not in the log answers; `suffix` is the random part of the id. */
  function NewAnswer(g: Gateway, st: GatewayState, txn: string, amount: int, suffix: string): Refunded {
    if g == AUTHORIZE_NET && txn in st.charges && st.charges[txn].status == REFUNDED
    then Refunded("an_refund_" + txn, amount)
    else Refunded(FreshId(g, suffix), amount)
  }

  function Answer(g: Gateway, st: GatewayState, txn: string, amount: int, key: string, suffix: string): Refunded {
    if key in st.refundLog then st.refundLog[key] else NewAnswer(g, st, txn, amount, suffix)
  }

  function AfterRefund(g: Gateway, st: GatewayState, txn: string, amount: int, key: string,
      suffix: string): GatewayState {
    if key in st.refundLog then st
    else GatewayState(
      if txn in st.charges then st.charges[txn := st.charges[txn].(status := REFUNDED)] else st.charges,
      st.refundLog[key := NewAnswer(g, st, txn, amount, suffix)])
  }

  function AfterRegister(g: Gateway, st: GatewayState, txn: string, amount: int): GatewayState {
    st.(charges := st.charges[txn := Charge(amount, if g == AUTHORIZE_NET then OK else CONFIRMED)])
  }

  // ----- The specification both adapters refine -----

  /** One refund against a write-once log: a used key answers from the log, a new key is recorded. */
  predicate WriteOnce(log: map<string, Refunded>, log': map<string, Refunded>, key: string, amount: int,
      answer: Refunded) {
    if key in log then log' == log && answer == log[key]
    else answer.refundedAmount == amount && log' == log[key := answer]
  }

  lemma AdapterRefinesWriteOnce(g: Gateway, st: GatewayState, txn: string, amount: int, key: string, suffix: string)
    ensures WriteOnce(st.refundLog, AfterRefund(g, st, txn, amount, key, suffix).refundLog, key, amount,
                      Answer(g, st, txn, amount, key, suffix))
  {
  }

  datatype Call =
    | Refund(txn: string, amount: int, key: string, suffix: string)
    | Register(txn: string, amount: int)

  function Step(g: Gateway, st: GatewayState, c: Call): GatewayState {
    match c
    case Refund(txn, amount, key, suffix) => AfterRefund(g, st, txn, amount, key, suffix)
    case Register(txn, amount) => AfterRegister(g, st, txn, amount)
  }

  function Run(g: Gateway, st: GatewayState, calls: seq<Call>): GatewayState {
    if calls == [] then st else Step(g, Run(g, st, calls[..|calls| - 1]), calls[|calls| - 1])
  }

  /** What the i-th call of a run, a refund, returned. */
  function AnswerAt(g: Gateway, st: GatewayState, calls: seq<Call>, i: nat): Refunded
    requires i < |calls| && calls[i].Refund?
  {
    var c := calls[i];
    Answer(g, Run(g, st, calls[..i]), c.txn, c.amount, c.key, c.suffix)
  }

  /** The log never loses or changes an entry. */
  lemma {:induction false} LogIsWriteOnce(g: Gateway, st: GatewayState, calls: seq<Call>, key: string)
    requires key in st.refundLog
    ensures key in Run(g, st, calls).refundLog && Run(g, st, calls).refundLog[key] == st.refundLog[key]
  {
    if calls != [] {
      LogIsWriteOnce(g, st, calls[..|calls| - 1], key);
    }
  }

  lemma {:induction false} RunSplit(g: Gateway, st: GatewayState, xs: seq<Call>, ys: seq<Call>)
    ensures Run(g, st, xs + ys) == Run(g, Run(g, st, xs), ys)
  {
    if ys == [] {
      assert xs + ys == xs;
    } else {
      var n := |ys| - 1;
      assert (xs + ys)[..|xs + ys| - 1] == xs + ys[..n];
      RunSplit(g, st, xs, ys[..n]);
    }
  }

  lemma {:induction false} UnusedKey(g: Gateway, st: GatewayState, calls: seq<Call>, key: string)
    requires key !in st.refundLog
    requires forall k :: 0 <= k < |calls| && calls[k].Refund? ==> calls[k].key != key
    ensures key !in Run(g, st, calls).refundLog
  {
    if calls != [] {
      UnusedKey(g, st, calls[..|calls| - 1], key);
    }
  }

  /**
   * Over any sequence of calls to either adapter, every later use of a key returns what its
   * first use returned, that answer carries the first requested amount, and it is what the
   * log holds at the end.
   */
  lemma RefundOncePerKey(g: Gateway, st: GatewayState, calls: seq<Call>, i: nat, j: nat)
    requires i <= j < |calls| && calls[i].Refund? && calls[j].Refund? && calls[i].key == calls[j].key
    requires calls[i].key !in st.refundLog
    requires forall k :: 0 <= k < i && calls[k].Refund? ==> calls[k].key != calls[i].key
    ensures AnswerAt(g, st, calls, j) == AnswerAt(g, st, calls, i)
    ensures AnswerAt(g, st, calls, i).refundedAmount == calls[i].amount
    ensures var end := Run(g, st, calls).refundLog;
            calls[i].key in end && end[calls[i].key] == AnswerAt(g, st, calls, i)
  {
    var key := calls[i].key;
    UnusedKey(g, st, calls[..i], key);
    assert calls[..i + 1][..i] == calls[..i];
    var after := Run(g, st, calls[..i + 1]);
    assert after.refundLog[key] == AnswerAt(g, st, calls, i);
    if i < j {
      assert calls[..j] == calls[..i + 1] + calls[i + 1..j];
      RunSplit(g, st, calls[..i + 1], calls[i + 1..j]);
      LogIsWriteOnce(g, after, calls[i + 1..j], key);
    }
    assert calls == calls[..i + 1] + calls[i + 1..];
    RunSplit(g, st, calls[..i + 1], calls[i + 1..]);
    LogIsWriteOnce(g, after, calls[i + 1..], key);
  }

  /**
   * The already-refunded branch does not give back the id of the refund that was made: it
   * agrees with the first answer exactly when the random suffix happened to be the charge id.
   * Each key is still answered with its own full amount, so nothing caps what one charge
   * refunds.
   */
  lemma SecondKeyOnOneCharge(st: GatewayState, txn: string, first: int, second: int, key1: string, key2: string,
                             suffix1: string, suffix2: string)
    requires key1 != key2 && key1 !in st.refundLog && key2 !in st.refundLog
    requires txn in st.charges && st.charges[txn].status != REFUNDED
    ensures var one := Answer(AUTHORIZE_NET, st, txn, first, key1, suffix1);
            var st' := AfterRefund(AUTHORIZE_NET, st, txn, first, key1, suffix1);
            var two := Answer(AUTHORIZE_NET, st', txn, second, key2, suffix2);
            && (one.gatewayRefundId == two.gatewayRefundId <==> suffix1 == txn)
            && one.refundedAmount == first && two.refundedAmount == second
  {
    assert ("an_refund_" + suffix1)[10..] == suffix1;
    assert ("an_refund_" + txn)[10..] == txn;
  }

  /**
   * So a charge registered with either adapter and then refunded under two keys: each key gets
   * its own amount, Solana's ids are both fresh, and Authorize.net's second is the charge's.
   */
  lemma RegisteredThenRefundedTwice(g: Gateway, st: GatewayState, txn: string, paid: int, first: int, second: int,
      key1: string, key2: string, suffix1: string, suffix2: string)
    requires key1 != key2 && key1 !in st.refundLog && key2 !in st.refundLog
    ensures var calls := [Register(txn, paid), Refund(txn, first, key1, suffix1), Refund(txn, second, key2, suffix2)];
            && AnswerAt(g, st, calls, 1)
               == (if g == SOLANA then Refunded("sol_refund_" + suffix1, first) else Refunded("an_refund_" + suffix1, first))
            && AnswerAt(g, st, calls, 2)
               == (if g == SOLANA then Refunded("sol_refund_" + suffix2, second) else Refunded("an_refund_" + txn, second))
            && Run(g, st, calls) == GatewayState(st.charges[txn := Charge(paid, REFUNDED)],
                 st.refundLog[key1 := AnswerAt(g, st, calls, 1)][key2 := AnswerAt(g, st, calls, 2)])
  {
    var a, b, c := Register(txn, paid), Refund(txn, first, key1, suffix1), Refund(txn, second, key2, suffix2);
    assert [a, b, c][..2] == [a, b] && [a, b][..1] == [a] && [a, b, c][..1] == [a] && [a][..0] == [];
    assert Run(g, st, [a]) == AfterRegister(g, st, txn, paid);
    assert Run(g, st, [a, b]) == Step(g, Run(g, st, [a]), b);
    assert Run(g, st, [a, b, c]) == Step(g, Run(g, st, [a, b]), c);
  }

  // ----- The adapters -----

  class AuthorizeNetGateway {
    var charges: map<string, Charge>
    var refundLog: map<string, Refunded>

    ghost function View(): GatewayState
      reads this
    {
      GatewayState(charges, refundLog)
    }

    constructor ()
      ensures View() == GatewayState(map[], map[])
    {
      charges, refundLog := map[], map[];
    }

    /** A used key is answered from the log; a new one is logged with its amount, and its charge is REFUNDED from then on. */
    method RefundCharge(txn: string, amount: int, key: string, suffix: string) returns (r: Refunded)
      modifies this
      ensures key in old(refundLog) ==> r == old(refundLog)[key] && refundLog == old(refundLog) && charges == old(charges)
      ensures key !in old(refundLog) ==>
                && r == Refunded("an_refund_" + (if txn in old(charges) && old(charges)[txn].status == REFUNDED then txn else suffix), amount)
                && refundLog == old(refundLog)[key := r]
                && charges == if txn in old(charges) then old(charges)[txn := Charge(old(charges)[txn].amount, REFUNDED)] else old(charges)
      ensures r == Answer(AUTHORIZE_NET, old(View()), txn, amount, key, suffix)
      ensures View() == AfterRefund(AUTHORIZE_NET, old(View()), txn, amount, key, suffix)
      ensures WriteOnce(old(refundLog), refundLog, key, amount, r)
    {
      if key in refundLog {
        return refundLog[key];
      }
      if txn in charges && charges[txn].status == REFUNDED {
        var refundId := "an_refund_" + txn;
        refundLog := refundLog[key := Refunded(refundId, amount)];
        assert charges == charges[txn := charges[txn].(status := REFUNDED)];
        return Refunded(refundId, amount);
      }
      if txn in charges {
        charges := charges[txn := charges[txn].(status := REFUNDED)];
      }
      r := Refunded("an_refund_" + suffix, amount);
      refundLog := refundLog[key := r];
    }

    method RegisterCharge(txn: string, amount: int)
      modifies this
      ensures charges == old(charges)[txn := Charge(amount, OK)] && refundLog == old(refundLog)
      ensures View() == AfterRegister(AUTHORIZE_NET, old(View()), txn, amount)
    {
      charges := charges[txn := Charge(amount, OK)];
    }
  }

  class SolanaGateway {
    var charges: map<string, Charge>
    var refundLog: map<string, Refunded>

    ghost function View(): GatewayState
      reads this
    {
      GatewayState(charges, refundLog)
    }

    constructor ()
      ensures View() == GatewayState(map[], map[])
    {
      charges, refundLog := map[], map[];
    }

    /** The same, but for the id: the status of the charge makes no difference to it. */
    method RefundCharge(txn: string, amount: int, key: string, suffix: string) returns (r: Refunded)
      modifies this
      ensures key in old(refundLog) ==> r == old(refundLog)[key] && refundLog == old(refundLog) && charges == old(charges)
      ensures key !in old(refundLog) ==>
                && r == Refunded("sol_refund_" + suffix, amount)
                && refundLog == old(refundLog)[key := r]
                && charges == if txn in old(charges) then old(charges)[txn := Charge(old(charges)[txn].amount, REFUNDED)] else old(charges)
      ensures r == Answer(SOLANA, old(View()), txn, amount, key, suffix)
      ensures View() == AfterRefund(SOLANA, old(View()), txn, amount, key, suffix)
      ensures WriteOnce(old(refundLog), refundLog, key, amount, r)
    {
      if key in refundLog {
        return refundLog[key];
      }
      if txn in charges {
        charges := charges[txn := charges[txn].(status := REFUNDED)];
      }
      r := Refunded("sol_refund_" + suffix, amount);
      refundLog := refundLog[key := r];
    }

    method RegisterCharge(txn: string, amount: int)
      modifies this
      ensures charges == old(charges)[txn := Charge(amount, CONFIRMED)] && refundLog == old(refundLog)
      ensures View() == AfterRegister(SOLANA, old(View()), txn, amount)
    {
      charges := charges[txn := Charge(amount, CONFIRMED)];
    }
  }
}
