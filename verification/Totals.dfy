/** What the committed ledger transactions of one source add up to. */
module Totals {
  import opened Prelude
  import opened Keys
  import opened Engine
  import opened Invariant
  import L = Ledger

  /** The net change that the transactions of one source make to one account. */
  function MovedBy(txns: seq<L.Txn>, source: LedgerSource, a: L.Account): int {
    if txns == [] then 0
    else
      var last := txns[|txns| - 1];
      MovedBy(txns[..|txns| - 1], source, a) + (if last.source == Some(source) then L.Moved(last.entries, a) else 0)
  }

  lemma {:induction false} NothingMoved(txns: seq<L.Txn>, source: LedgerSource, a: L.Account)
    requires !HasSource(txns, source)
    ensures MovedBy(txns, source, a) == 0
  {
    if txns != [] {
      var n := |txns| - 1;
      assert txns[n].source != Some(source);
      forall k | 0 <= k < n ensures txns[..n][k].source != Some(source) {
        assert txns[k].source != Some(source);
      }
      NothingMoved(txns[..n], source, a);
    }
  }

  lemma {:induction false} OneMoved(txns: seq<L.Txn>, source: LedgerSource, a: L.Account, k: nat)
    requires k < |txns| && txns[k].source == Some(source)
    requires forall j :: 0 <= j < |txns| && txns[j].source == Some(source) ==> j == k
    ensures MovedBy(txns, source, a) == L.Moved(txns[k].entries, a)
  {
    var n := |txns| - 1;
    if k == n {
      forall j | 0 <= j < n ensures txns[..n][j].source != Some(source) {
        assert txns[j].source == Some(source) ==> j == k;
      }
      NothingMoved(txns[..n], source, a);
    } else {
      assert txns[n].source != Some(source);
      OneMoved(txns[..n], source, a, k);
    }
  }

  /** Unique keys mean unique sources. */
  lemma SourceOnce(db: Db, gate: Gate, opening: map<string, int>, i: nat, j: nat)
    requires RowsOk(db, gate, opening)
    requires i < |db.books.txns| && j < |db.books.txns|
    requires db.books.txns[i].source == db.books.txns[j].source
    ensures i == j
  {
    hide LedgerKey;
    assert TxnOk(db, db.books.txns[i]) && TxnOk(db, db.books.txns[j]);
    assert L.KeysUnique(db.books.txns);
  }

  /** A source moves exactly what its one transaction moves, or nothing if it has none. */
  lemma SourceMoves(db: Db, gate: Gate, opening: map<string, int>, source: LedgerSource, k: nat, a: L.Account)
    requires RowsOk(db, gate, opening)
    requires k < |db.books.txns| && db.books.txns[k].source == Some(source)
    ensures MovedBy(db.books.txns, source, a) == L.Moved(db.books.txns[k].entries, a)
  {
    hide RowsOk;
    forall j | 0 <= j < |db.books.txns| && db.books.txns[j].source == Some(source) ensures j == k {
      SourceOnce(db, gate, opening, j, k);
    }
    OneMoved(db.books.txns, source, a, k);
  }

  lemma TwoMoved(x: L.Entry, y: L.Entry, a: L.Account)
    ensures L.Moved([x, y], a)
         == (if x.account == a then L.BalanceChange(a.kind, x.side, x.amount) else 0)
          + (if y.account == a then L.BalanceChange(a.kind, y.side, y.amount) else 0)
  {
    assert [x, y][..1] == [x];
    assert [x][..0] == [];
    assert L.Moved([x], a) == if x.account == a then L.BalanceChange(a.kind, x.side, x.amount) else 0;
  }

  /** Revenue and the user's asset both go down by the amount; nothing else moves. */
  lemma ReversalMoves(user: string, amount: int, a: L.Account)
    ensures L.Moved(ReversalLines(user, amount), a)
         == if a == L.Account("test-admin-1", L.REVENUE) || a == L.Account(user, L.ASSET) then -amount else 0
  {
    TwoMoved(ReversalLines(user, amount)[0], ReversalLines(user, amount)[1], a);
  }

  lemma WonMoves(user: string, amount: int, a: L.Account)
    ensures L.Moved(WonLines(user, amount), a)
         == if a == L.Account("test-admin-1", L.REVENUE) || a == L.Account(user, L.ASSET) then amount else 0
  {
    TwoMoved(WonLines(user, amount)[0], WonLines(user, amount)[1], a);
  }

  lemma FeeMoves(user: string, fee: int, a: L.Account)
    ensures L.Moved(FeeLines(user, fee), a)
         == if a == L.Account("test-admin-1", L.EXPENSE) then fee else if a == L.Account(user, L.ASSET) then -fee else 0
  {
    TwoMoved(FeeLines(user, fee)[0], FeeLines(user, fee)[1], a);
  }

  /** Winning a dispute puts every balance back to what it was before the chargeback. */
  lemma WonUndoesReversal(balances: map<L.Account, int>, user: string, amount: int)
    ensures L.Post(L.Post(balances, ReversalLines(user, amount)), WonLines(user, amount)) == balances
  {
    forall a | a in balances ensures L.Moved(ReversalLines(user, amount), a) + L.Moved(WonLines(user, amount), a) == 0 {
      ReversalMoves(user, amount, a);
      WonMoves(user, amount, a);
    }
  }

  /** Losing one leaves the reversal and moves the fee from the user's asset to expense. */
  lemma LostKeepsReversal(balances: map<L.Account, int>, user: string, amount: int, fee: int, a: L.Account)
    requires a in balances
    ensures L.Post(L.Post(balances, ReversalLines(user, amount)), FeeLines(user, fee))[a] - balances[a]
         == (if a == L.Account("test-admin-1", L.REVENUE) || a == L.Account(user, L.ASSET) then -amount else 0)
          + (if a == L.Account("test-admin-1", L.EXPENSE) then fee else if a == L.Account(user, L.ASSET) then -fee else 0)
  {
    ReversalMoves(user, amount, a);
    FeeMoves(user, fee, a);
  }
}
