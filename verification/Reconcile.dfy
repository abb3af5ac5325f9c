/** The balance sheet adds up row by row to the refund and dispute tables. */
module Reconcile {
  import opened Prelude
  import opened Keys
  import opened Engine
  import opened Invariant
  import opened Machine
  import opened Totals
  import opened Theorems
  import L = Ledger
  import C = Credits

  ghost function SumOver(ids: set<string>, share: string -> int): int {
    if ids == {} then 0
    else
      var x :| x in ids; share(x) + SumOver(ids - {x}, share)
  }

  lemma {:induction false} SumPick(ids: set<string>, share: string -> int, x: string)
    requires x in ids
    ensures SumOver(ids, share) == share(x) + SumOver(ids - {x}, share)
    decreases |ids|
  {
    var y :| y in ids && SumOver(ids, share) == share(y) + SumOver(ids - {y}, share);
    if y != x {
      SumPick(ids - {y}, share, x);
      SumPick(ids - {x}, share, y);
      assert ids - {y} - {x} == ids - {x} - {y};
    }
  }

  lemma {:induction false} SumSame(ids: set<string>, f: string -> int, g: string -> int)
    requires forall x :: x in ids ==> f(x) == g(x)
    ensures SumOver(ids, f) == SumOver(ids, g)
    decreases |ids|
  {
    if ids != {} {
      var x :| x in ids;
      SumPick(ids, f, x);
      SumPick(ids, g, x);
      SumSame(ids - {x}, f, g);
    }
  }

  lemma SumChangesAt(ids: set<string>, f: string -> int, g: string -> int, x: string)
    requires x in ids && forall y :: y in ids && y != x ==> f(y) == g(y)
    ensures SumOver(ids, g) == SumOver(ids, f) + g(x) - f(x)
  {
    SumPick(ids, f, x);
    SumPick(ids, g, x);
    SumSame(ids - {x}, f, g);
  }

  lemma {:induction false} SumZeroes(ids: set<string>, f: string -> int)
    requires forall x :: x in ids ==> f(x) == 0
    ensures SumOver(ids, f) == 0
    decreases |ids|
  {
    if ids != {} {
      var x :| x in ids;
      SumPick(ids, f, x);
      SumZeroes(ids - {x}, f);
    }
  }

  ghost function RefundPart(txns: seq<L.Txn>, a: L.Account): string -> int {
    id => MovedBy(txns, RefundOf(id), a)
  }

  ghost function DisputePart(txns: seq<L.Txn>, disputes: map<string, Dispute>, a: L.Account): string -> int {
    d => if d in disputes then DisputeMoves(txns, d, disputes[d].charge, a) else 0
  }

  /** Every transaction belongs to one of the rows. */
  ghost predicate Owned(db: Db, source: Option<LedgerSource>) {
    && source.Some?
    && match source.value
       case RefundOf(id) => id in db.refunds
       case ReversalOf(charge) => HasDisputeOn(db.disputes, charge)
       case WonOf(d) => d in db.disputes
       case LostOf(d) => d in db.disputes
  }

  lemma LastMoves(txns: seq<L.Txn>, source: LedgerSource, a: L.Account)
    requires txns != []
    ensures var n := |txns| - 1;
            MovedBy(txns, source, a) == MovedBy(txns[..n], source, a) + (if txns[n].source == Some(source) then L.Moved(txns[n].entries, a) else 0)
  {
  }

  lemma RefundPartGrows(db: Db, txns: seq<L.Txn>, a: L.Account)
    requires txns != [] && Owned(db, txns[|txns| - 1].source)
    ensures var n := |txns| - 1;
            SumOver(db.refunds.Keys, RefundPart(txns, a))
            == SumOver(db.refunds.Keys, RefundPart(txns[..n], a))
             + (if txns[n].source.value.RefundOf? then L.Moved(txns[n].entries, a) else 0)
  {
    hide MovedBy;
    var n := |txns| - 1;
    var f, g := RefundPart(txns[..n], a), RefundPart(txns, a);
    forall id | id in db.refunds ensures g(id) == f(id) + (if txns[n].source == Some(RefundOf(id)) then L.Moved(txns[n].entries, a) else 0) {
      LastMoves(txns, RefundOf(id), a);
    }
    if txns[n].source.value.RefundOf? {
      SumChangesAt(db.refunds.Keys, f, g, txns[n].source.value.refund);
    } else {
      SumSame(db.refunds.Keys, f, g);
    }
  }

  ghost predicate ChargesOwnDisputes(disputes: map<string, Dispute>) {
    forall d, e :: d in disputes && e in disputes && disputes[d].charge == disputes[e].charge ==> d == e
  }

  ghost function OwnerOf(db: Db, source: LedgerSource): string
    requires Owned(db, Some(source)) && !source.RefundOf?
  {
    match source
    case ReversalOf(charge) => var d :| d in db.disputes && db.disputes[d].charge == charge; d
    case WonOf(d) => d
    case LostOf(d) => d
    case RefundOf(id) => id
  }

  lemma DisputeLast(db: Db, txns: seq<L.Txn>, a: L.Account, d: string)
    requires txns != [] && Owned(db, txns[|txns| - 1].source) && ChargesOwnDisputes(db.disputes) && d in db.disputes
    ensures var n := |txns| - 1;
            var src := txns[n].source.value;
            DisputePart(txns, db.disputes, a)(d) == DisputePart(txns[..n], db.disputes, a)(d)
              + (if !src.RefundOf? && OwnerOf(db, src) == d then L.Moved(txns[n].entries, a) else 0)
  {
    hide MovedBy;
    LastMoves(txns, ReversalOf(db.disputes[d].charge), a);
    LastMoves(txns, WonOf(d), a);
    LastMoves(txns, LostOf(d), a);
  }

  lemma DisputePartGrows(db: Db, txns: seq<L.Txn>, a: L.Account)
    requires txns != [] && Owned(db, txns[|txns| - 1].source) && ChargesOwnDisputes(db.disputes)
    ensures var n := |txns| - 1;
            SumOver(db.disputes.Keys, DisputePart(txns, db.disputes, a))
            == SumOver(db.disputes.Keys, DisputePart(txns[..n], db.disputes, a))
             + (if txns[n].source.value.RefundOf? then 0 else L.Moved(txns[n].entries, a))
  {
    hide MovedBy;
    var n := |txns| - 1;
    var f, g := DisputePart(txns[..n], db.disputes, a), DisputePart(txns, db.disputes, a);
    var src := txns[n].source.value;
    forall d | d in db.disputes ensures g(d) == f(d) + (if !src.RefundOf? && OwnerOf(db, src) == d then L.Moved(txns[n].entries, a) else 0) {
      DisputeLast(db, txns, a, d);
    }
    if src.RefundOf? {
      SumSame(db.disputes.Keys, f, g);
    } else {
      SumChangesAt(db.disputes.Keys, f, g, OwnerOf(db, src));
    }
  }

  lemma {:induction false} EntriesAddUp(db: Db, txns: seq<L.Txn>, a: L.Account)
    requires ChargesOwnDisputes(db.disputes) && forall k :: 0 <= k < |txns| ==> Owned(db, txns[k].source)
    ensures L.Moved(L.AllEntries(txns), a)
         == SumOver(db.refunds.Keys, RefundPart(txns, a)) + SumOver(db.disputes.Keys, DisputePart(txns, db.disputes, a))
  {
    if txns == [] {
      SumZeroes(db.refunds.Keys, RefundPart(txns, a));
      SumZeroes(db.disputes.Keys, DisputePart(txns, db.disputes, a));
    } else {
      var n := |txns| - 1;
      EntriesAddUp(db, txns[..n], a);
      L.MovedConcat(L.AllEntries(txns[..n]), txns[n].entries, a);
      RefundPartGrows(db, txns, a);
      DisputePartGrows(db, txns, a);
    }
  }

  /** What one refund row contributes to an account, read off the row alone. */
  function RefundShare(r: Refund, a: L.Account): int {
    if r.paymentRefundId.Some? && (a == L.Account("test-admin-1", L.REVENUE) || a == L.Account(r.user, L.ASSET)) then -r.amount else 0
  }

  /** What one dispute contributes, given whether it was won and the fee it was charged. */
  function DisputeShare(x: Dispute, won: bool, fee: int, a: L.Account): int {
    if a == L.Account("test-admin-1", L.REVENUE) then (if won then 0 else -x.amount)
    else if a == L.Account("test-admin-1", L.EXPENSE) then fee
    else if a == L.Account(x.user, L.ASSET) then (if won then 0 else -x.amount) - fee
    else 0
  }

  ghost function RefundShares(db: Db, a: L.Account): string -> int {
    id => if id in db.refunds then RefundShare(db.refunds[id], a) else 0
  }

  ghost function DisputeShares(db: Db, a: L.Account): string -> int {
    d => if d in db.disputes
         then DisputeShare(db.disputes[d], HasSource(db.books.txns, WonOf(d)), FeeOf(db.books.txns, d), a) else 0
  }

  lemma RowsOwnBooks(db: Db, gate: Gate, opening: map<string, int>)
    requires RowsOk(db, gate, opening)
    ensures ChargesOwnDisputes(db.disputes)
    ensures forall k :: 0 <= k < |db.books.txns| ==> Owned(db, db.books.txns[k].source)
    ensures forall a :: a in db.books.balances ==> db.books.balances[a] == L.Moved(L.AllEntries(db.books.txns), a)
  {
    hide LedgerKey, DisputeKey, C.Sound;
    forall d, e | d in db.disputes && e in db.disputes && db.disputes[d].charge == db.disputes[e].charge ensures d == e {
      OneDisputePerCharge(db, gate, opening, d, e);
    }
    forall k | 0 <= k < |db.books.txns| ensures Owned(db, db.books.txns[k].source) {
      assert TxnOk(db, db.books.txns[k]);
    }
  }

  /**
   * Conservation. In every reachable state the balance of every account is exactly the sum
   * of what the refund rows and the dispute rows say: a set paymentRefundId accounts for one
   * refund, a dispute for its reversal unless won, plus its fee if lost, and nothing else
   * ever moves an account.
   */
  lemma BalancesAreTheSumOfRows(s: State, acts: seq<Action>, a: L.Account, opening: map<string, int>)
    requires Initial(s, opening) && a in Run(s, acts).db.books.balances
    ensures var db := Run(s, acts).db;
            db.books.balances[a] == SumOver(db.refunds.Keys, RefundShares(db, a)) + SumOver(db.disputes.Keys, DisputeShares(db, a))
  {
    hide Initial, RowsOk, WorkerOk, Do, MovedBy, HasSource, FeeOf, L.AllEntries, L.Moved, Owned, ChargesOwnDisputes;
    Reachable(s, acts, opening);
    var e := Run(s, acts);
    var db := e.db;
    RowsOwnBooks(db, e.gate, opening);
    EntriesAddUp(db, db.books.txns, a);
    forall id | id in db.refunds ensures RefundPart(db.books.txns, a)(id) == RefundShares(db, a)(id) {
      RefundMoved(db, e.gate, opening, id, a);
    }
    SumSame(db.refunds.Keys, RefundPart(db.books.txns, a), RefundShares(db, a));
    forall d | d in db.disputes ensures DisputePart(db.books.txns, db.disputes, a)(d) == DisputeShares(db, a)(d) {
      ReversalMoved(db, e.gate, opening, d, a);
      WonMoved(db, e.gate, opening, d, a);
      LostMoved(db, e.gate, opening, d, a);
    }
    SumSame(db.disputes.Keys, DisputePart(db.books.txns, db.disputes, a), DisputeShares(db, a));
  }

  /**
   * Nothing else is ever in the books: a LIABILITY or EQUITY account, and a REVENUE or EXPENSE
   * account of anyone but the system user, stays at zero.
   */
  lemma OtherAccountsStayEmpty(s: State, acts: seq<Action>, a: L.Account, opening: map<string, int>)
    requires Initial(s, opening) && a in Run(s, acts).db.books.balances
    requires a.kind == L.LIABILITY || a.kind == L.EQUITY || (a.kind != L.ASSET && a.owner != "test-admin-1")
    ensures Run(s, acts).db.books.balances[a] == 0
  {
    hide Initial, Run, SumOver, FeeOf, HasSource;
    var db := Run(s, acts).db;
    BalancesAreTheSumOfRows(s, acts, a, opening);
    SumZeroes(db.refunds.Keys, RefundShares(db, a));
    SumZeroes(db.disputes.Keys, DisputeShares(db, a));
  }
}
