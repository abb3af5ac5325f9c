/**
 * Double-entry posting (billing/ledger.service.ts).
 *
 * The first half gives the meaning of the books as values: what one posting moves, and
 * when a set of books is sound. The second half is the service itself, which updates the
 * balances entry by entry in place and is proved against that meaning.
 */
module Ledger {
  import opened Prelude
  import Keys

  datatype AccountType = ASSET | LIABILITY | REVENUE | EXPENSE | EQUITY
  datatype EntryType = DEBIT | CREDIT

  /** An account row, named by its unique (userId, accountType) pair. */
  datatype Account = Account(owner: string, kind: AccountType)

  datatype Entry = Entry(account: Account, side: EntryType, amount: int)

  datatype Txn = Txn(id: string, key: Option<string>, source: Option<Keys.LedgerSource>, entries: seq<Entry>)

  datatype Books = Books(balances: map<Account, int>, txns: seq<Txn>)

  datatype Error = TooFewEntries | NonPositiveAmount | Unbalanced | AccountNotFound

  const SYSTEM_USER_ID := "test-admin-1"

  predicate DebitNormal(kind: AccountType) {
    kind == ASSET || kind == EXPENSE
  }

  /** calculateBalanceChange */
  function BalanceChange(kind: AccountType, side: EntryType, amount: int): int {
    if DebitNormal(kind) then
      if side == DEBIT then amount else -amount
    else
      if side == CREDIT then amount else -amount
  }

  // ----- What a list of entries moves -----

  /** The net change a list of entries makes to one account. */
  function Moved(entries: seq<Entry>, a: Account): int {
    if entries == [] then 0
    else
      var last := entries[|entries| - 1];
      Moved(entries[..|entries| - 1], a)
      + (if last.account == a then BalanceChange(a.kind, last.side, last.amount) else 0)
  }

  function Total(entries: seq<Entry>, side: EntryType): int {
    if entries == [] then 0
    else
      var last := entries[|entries| - 1];
      Total(entries[..|entries| - 1], side) + (if last.side == side then last.amount else 0)
  }

  predicate AllPositive(entries: seq<Entry>) {
    forall k :: 0 <= k < |entries| ==> entries[k].amount > 0
  }

  predicate Balanced(entries: seq<Entry>) {
    |entries| >= 2 && AllPositive(entries) && Total(entries, DEBIT) == Total(entries, CREDIT)
  }

  predicate Known(balances: map<Account, int>, entries: seq<Entry>) {
    forall k :: 0 <= k < |entries| ==> entries[k].account in balances
  }

  /** The number of leading entries whose accounts exist. */
  function FirstUnknown(balances: map<Account, int>, entries: seq<Entry>): (n: nat)
    ensures n <= |entries|
    ensures forall k :: 0 <= k < n ==> entries[k].account in balances
    ensures n < |entries| ==> entries[n].account !in balances
  {
    if entries == [] || entries[0].account !in balances then 0
    else 1 + FirstUnknown(balances, entries[1..])
  }

  function Post(balances: map<Account, int>, entries: seq<Entry>): map<Account, int> {
    map a | a in balances :: balances[a] + Moved(entries, a)
  }

  function Append(b: Books, txn: Txn): Books {
    Books(Post(b.balances, txn.entries), b.txns + [txn])
  }

  /** An upsert of an account row with an empty update. */
  function Ensure(b: Books, a: Account): Books {
    if a in b.balances then b else b.(balances := b.balances[a := 0])
  }

  // ----- Sound books -----

  function AllEntries(txns: seq<Txn>): seq<Entry> {
    if txns == [] then [] else AllEntries(txns[..|txns| - 1]) + txns[|txns| - 1].entries
  }

  ghost predicate HasKey(txns: seq<Txn>, key: string) {
    exists k :: 0 <= k < |txns| && txns[k].key == Some(key)
  }

  ghost predicate HasId(txns: seq<Txn>, id: string) {
    exists k :: 0 <= k < |txns| && txns[k].id == id
  }

  ghost predicate KeysUnique(txns: seq<Txn>) {
    && (forall i, j :: 0 <= i < j < |txns| && txns[i].key.Some? ==> txns[i].key != txns[j].key)
    && (forall i, j :: 0 <= i < j < |txns| ==> txns[i].id != txns[j].id)
  }

  /**
   * Balance rows agree with the entry rows, every transaction is a balanced posting to
   * accounts that exist, and idempotency keys and row ids are unique.
   */
  ghost predicate Sound(b: Books) {
    && (forall a :: a in b.balances ==> b.balances[a] == Moved(AllEntries(b.txns), a))
    && (forall k :: 0 <= k < |b.txns| ==> Balanced(b.txns[k].entries) && Known(b.balances, b.txns[k].entries))
    && KeysUnique(b.txns)
  }

  // ----- Lemmas about entry lists -----

  lemma {:induction false} MovedConcat(xs: seq<Entry>, ys: seq<Entry>, a: Account)
    ensures Moved(xs + ys, a) == Moved(xs, a) + Moved(ys, a)
  {
    if ys == [] {
      assert xs + ys == xs;
    } else {
      var n := |ys| - 1;
      assert (xs + ys)[..|xs + ys| - 1] == xs + ys[..n];
      MovedConcat(xs, ys[..n], a);
    }
  }

  lemma {:induction false} TotalConcat(xs: seq<Entry>, ys: seq<Entry>, side: EntryType)
    ensures Total(xs + ys, side) == Total(xs, side) + Total(ys, side)
  {
    if ys == [] {
      assert xs + ys == xs;
    } else {
      var n := |ys| - 1;
      assert (xs + ys)[..|xs + ys| - 1] == xs + ys[..n];
      TotalConcat(xs, ys[..n], side);
    }
  }

  lemma {:induction false} MovedElsewhere(entries: seq<Entry>, a: Account)
    requires forall k :: 0 <= k < |entries| ==> entries[k].account != a
    ensures Moved(entries, a) == 0
  {
    if entries != [] {
      MovedElsewhere(entries[..|entries| - 1], a);
    }
  }

  lemma {:induction false} KnownAll(balances: map<Account, int>, txns: seq<Txn>)
    requires forall k :: 0 <= k < |txns| ==> Known(balances, txns[k].entries)
    ensures Known(balances, AllEntries(txns))
  {
    if txns != [] {
      var n := |txns| - 1;
      KnownAll(balances, txns[..n]);
      assert Known(balances, txns[n].entries);
    }
  }

  lemma {:induction false} BalancedAll(txns: seq<Txn>)
    requires forall k :: 0 <= k < |txns| ==> Balanced(txns[k].entries)
    ensures Total(AllEntries(txns), DEBIT) == Total(AllEntries(txns), CREDIT)
  {
    if txns != [] {
      var n := |txns| - 1;
      BalancedAll(txns[..n]);
      assert Balanced(txns[n].entries);
      TotalConcat(AllEntries(txns[..n]), txns[n].entries, DEBIT);
      TotalConcat(AllEntries(txns[..n]), txns[n].entries, CREDIT);
    }
  }

  // ----- Soundness is kept by everything the service writes -----

  lemma EnsureSound(b: Books, a: Account)
    requires Sound(b)
    ensures Sound(Ensure(b, a))
    ensures Ensure(b, a).txns == b.txns && a in Ensure(b, a).balances
    ensures forall x :: x in b.balances ==> x in Ensure(b, a).balances && Ensure(b, a).balances[x] == b.balances[x]
  {
    if a !in b.balances {
      KnownAll(b.balances, b.txns);
      MovedElsewhere(AllEntries(b.txns), a);
      var b' := Ensure(b, a);
      forall k | 0 <= k < |b'.txns| ensures Known(b'.balances, b'.txns[k].entries) {
        assert Known(b.balances, b.txns[k].entries);
      }
    }
  }

  lemma AppendSound(b: Books, txn: Txn)
    requires Sound(b)
    requires Balanced(txn.entries) && Known(b.balances, txn.entries)
    requires txn.key.Some? ==> !HasKey(b.txns, txn.key.value)
    requires !HasId(b.txns, txn.id)
    ensures Sound(Append(b, txn))
  {
    var b' := Append(b, txn);
    var n := |b.txns|;
    assert b'.txns[..n] == b.txns;
    forall a | a in b'.balances ensures b'.balances[a] == Moved(AllEntries(b'.txns), a) {
      MovedConcat(AllEntries(b.txns), txn.entries, a);
    }
    forall k | 0 <= k < |b'.txns|
      ensures Balanced(b'.txns[k].entries) && Known(b'.balances, b'.txns[k].entries)
    {
      assert k < n ==> b'.txns[k] == b.txns[k] && Known(b.balances, b.txns[k].entries);
    }
    forall i, j | 0 <= i < j < |b'.txns| && b'.txns[i].key.Some?
      ensures b'.txns[i].key != b'.txns[j].key
    {
      assert b.txns[i].key == b'.txns[i].key;
    }
    forall i, j | 0 <= i < j < |b'.txns|
      ensures b'.txns[i].id != b'.txns[j].id
    {
      assert b.txns[i].id == b'.txns[i].id;
    }
  }

  // ----- Trial balance -----

  /** Sum of the balances of all accounts of some kinds. */
  ghost function SumOf(balances: map<Account, int>, kinds: set<AccountType>): int {
    if balances == map[] then 0
    else
      var a :| a in balances;
      (if a.kind in kinds then balances[a] else 0) + SumOf(balances - {a}, kinds)
  }

  lemma {:induction false} SumPick(balances: map<Account, int>, a: Account, kinds: set<AccountType>)
    requires a in balances
    ensures SumOf(balances, kinds)
         == (if a.kind in kinds then balances[a] else 0) + SumOf(balances - {a}, kinds)
    decreases |balances|
  {
    var c :| c in balances && SumOf(balances, kinds)
         == (if c.kind in kinds then balances[c] else 0) + SumOf(balances - {c}, kinds);
    if c != a {
      SumPick(balances - {c}, a, kinds);
      SumPick(balances - {a}, c, kinds);
      assert balances - {c} - {a} == balances - {a} - {c};
    }
  }

  lemma SumUpdate(balances: map<Account, int>, a: Account, v: int, kinds: set<AccountType>)
    requires a in balances
    ensures SumOf(balances[a := v], kinds)
         == SumOf(balances, kinds) + (if a.kind in kinds then v - balances[a] else 0)
  {
    SumPick(balances, a, kinds);
    SumPick(balances[a := v], a, kinds);
    assert balances[a := v] - {a} == balances - {a};
  }

  lemma {:induction false} SumZero(balances: map<Account, int>, kinds: set<AccountType>)
    requires forall a :: a in balances ==> balances[a] == 0
    ensures SumOf(balances, kinds) == 0
    decreases |balances|
  {
    if balances != map[] {
      var c :| c in balances;
      SumPick(balances, c, kinds);
      SumZero(balances - {c}, kinds);
    }
  }

  /** One entry moves the two sides of the trial balance apart by its signed amount. */
  lemma SumEntry(balances: map<Account, int>, e: Entry)
    requires e.account in balances
    ensures SumOf(Post(balances, [e]), {ASSET, EXPENSE}) - SumOf(Post(balances, [e]), {LIABILITY, REVENUE, EQUITY})
         == SumOf(balances, {ASSET, EXPENSE}) - SumOf(balances, {LIABILITY, REVENUE, EQUITY}) + (if e.side == DEBIT then e.amount else -e.amount)
  {
    var v := balances[e.account] + BalanceChange(e.account.kind, e.side, e.amount);
    forall a | a in balances ensures Moved([e], a) == (if e.account == a then BalanceChange(a.kind, e.side, e.amount) else 0) {
      assert [e][..0] == [];
    }
    assert Post(balances, [e]) == balances[e.account := v];
    SumUpdate(balances, e.account, v, {ASSET, EXPENSE});
    SumUpdate(balances, e.account, v, {LIABILITY, REVENUE, EQUITY});
  }

  lemma PostConcat(balances: map<Account, int>, xs: seq<Entry>, ys: seq<Entry>)
    ensures Post(balances, xs + ys) == Post(Post(balances, xs), ys)
  {
    forall a | a in balances ensures Moved(xs + ys, a) == Moved(xs, a) + Moved(ys, a) {
      MovedConcat(xs, ys, a);
    }
  }

  lemma {:induction false} SumPost(balances: map<Account, int>, entries: seq<Entry>)
    requires Known(balances, entries)
    ensures SumOf(Post(balances, entries), {ASSET, EXPENSE}) - SumOf(Post(balances, entries), {LIABILITY, REVENUE, EQUITY})
         == SumOf(balances, {ASSET, EXPENSE}) - SumOf(balances, {LIABILITY, REVENUE, EQUITY}) + Total(entries, DEBIT) - Total(entries, CREDIT)
  {
    if entries == [] {
      assert Post(balances, entries) == balances;
    } else {
      var n := |entries| - 1;
      assert entries == entries[..n] + [entries[n]];
      SumPost(balances, entries[..n]);
      PostConcat(balances, entries[..n], [entries[n]]);
      SumEntry(Post(balances, entries[..n]), entries[n]);
    }
  }

  /**
   * Trial balance: in sound books the ASSET and EXPENSE balances add up to exactly the
   * LIABILITY, REVENUE and EQUITY balances.
   */
  lemma TrialBalance(b: Books)
    requires Sound(b)
    ensures SumOf(b.balances, {ASSET, EXPENSE}) == SumOf(b.balances, {LIABILITY, REVENUE, EQUITY})
  {
    var zero := map a | a in b.balances :: 0;
    var all := AllEntries(b.txns);
    KnownAll(b.balances, b.txns);
    BalancedAll(b.txns);
    assert Post(zero, all) == b.balances;
    SumZero(zero, {ASSET, EXPENSE});
    SumZero(zero, {LIABILITY, REVENUE, EQUITY});
    assert Known(zero, all);
    SumPost(zero, all);
  }

  // ----- Reversal -----

  function Flip(side: EntryType): EntryType {
    if side == DEBIT then CREDIT else DEBIT
  }

  function Mirror(entries: seq<Entry>): seq<Entry> {
    seq(|entries|, k requires 0 <= k < |entries| => entries[k].(side := Flip(entries[k].side)))
  }

  lemma {:induction false} MirrorMoves(entries: seq<Entry>, a: Account)
    ensures Moved(Mirror(entries), a) == -Moved(entries, a)
    ensures Total(Mirror(entries), DEBIT) == Total(entries, CREDIT)
    ensures Total(Mirror(entries), CREDIT) == Total(entries, DEBIT)
  {
    if entries != [] {
      var n := |entries| - 1;
      MirrorMoves(entries[..n], a);
      assert Mirror(entries)[..n] == Mirror(entries[..n]);
    }
  }

  /** Posting any valid entry list and then its debit/credit mirror restores every balance. */
  lemma MirrorRestores(balances: map<Account, int>, entries: seq<Entry>)
    requires Balanced(entries)
    ensures Balanced(Mirror(entries))
    ensures Post(Post(balances, entries), Mirror(entries)) == balances
  {
    forall a | a in balances ensures Moved(Mirror(entries), a) == -Moved(entries, a) {
      MirrorMoves(entries, a);
    }
    MirrorMoves(entries, Account("", ASSET));
    assert Post(Post(balances, entries), Mirror(entries)) == balances;
  }

  // ----- The service -----

  /** What recordTransaction does, as a function of the books. */
  datatype Recorded =
    | Hit(txn: Txn)
    | Posted(txn: Txn)
    | Rejected(error: Error)

  function Validate(entries: seq<Entry>): Option<Error> {
    if |entries| < 2 then Some(TooFewEntries)
    else if !AllPositive(entries) then Some(NonPositiveAmount)
    else if Total(entries, DEBIT) != Total(entries, CREDIT) then Some(Unbalanced)
    else None
  }

  class LedgerService {
    var balances: map<Account, int>
    var txns: seq<Txn>

    ghost function View(): Books
      reads this
    {
      Books(balances, txns)
    }

    constructor ()
      ensures Sound(View()) && txns == [] && balances == map[]
    {
      balances := map[];
      txns := [];
    }

    /** An outer transaction puts back the rows it found. */
    method Restore(b: Books)
      modifies this
      ensures View() == b
    {
      balances, txns := b.balances, b.txns;
    }

    method GetOrCreateAccount(owner: string, kind: AccountType) returns (a: Account)
      modifies this
      ensures a == Account(owner, kind) && txns == old(txns)
      ensures balances == if a in old(balances) then old(balances) else old(balances)[a := 0]
      ensures View() == Ensure(old(View()), a)
    {
      a := Account(owner, kind);
      if a !in balances {
        balances := balances[a := 0];
      }
    }

    /** The prisma.findFirst lookup by idempotency key. */
    method FindByKey(key: string) returns (found: Option<Txn>)
      ensures found.None? <==> !HasKey(txns, key)
      ensures found.Some? ==> found.value in txns && found.value.key == Some(key)
    {
      for k := 0 to |txns|
        invariant forall j :: 0 <= j < k ==> txns[j].key != Some(key)
      {
        if txns[k].key == Some(key) {
          return Some(txns[k]);
        }
      }
      return None;
    }

    /**
     * Accepts exactly the balanced lists of at least two positive entries, and otherwise
     * names the first rule broken.
     */
    method CheckEntries(entries: seq<Entry>) returns (e: Option<Error>)
      ensures e == Some(TooFewEntries) <==> |entries| < 2
      ensures e == Some(NonPositiveAmount) <==> |entries| >= 2 && exists k :: 0 <= k < |entries| && entries[k].amount <= 0
      ensures e == Some(Unbalanced) <==>
                && |entries| >= 2 && (forall k :: 0 <= k < |entries| ==> entries[k].amount > 0)
                && Total(entries, DEBIT) != Total(entries, CREDIT)
      ensures e == Validate(entries)
      ensures e.None? <==> Balanced(entries)
    {
      if |entries| < 2 {
        return Some(TooFewEntries);
      }
      var debitTotal, creditTotal := 0, 0;
      for k := 0 to |entries|
        invariant AllPositive(entries[..k])
        invariant debitTotal == Total(entries[..k], DEBIT)
        invariant creditTotal == Total(entries[..k], CREDIT)
      {
        if entries[k].amount <= 0 {
          return Some(NonPositiveAmount);
        }
        assert entries[..k + 1][..k] == entries[..k];
        if entries[k].side == DEBIT {
          debitTotal := debitTotal + entries[k].amount;
        } else {
          creditTotal := creditTotal + entries[k].amount;
        }
      }
      assert entries[..|entries|] == entries;
      return if debitTotal != creditTotal then Some(Unbalanced) else None;
    }

    /**
     * Writes the transaction row, then entry and balance one at a time. A missing account
     * stops the loop and leaves the entries written so far for the caller to roll back.
     */
    method ExecuteRecord(id: string, key: Option<string>, source: Option<Keys.LedgerSource>, entries: seq<Entry>)
      returns (r: Result<Txn, Error>)
      modifies this
      ensures View() == Append(old(View()), Txn(id, key, source, entries[..FirstUnknown(old(balances), entries)]))
      ensures r == if Known(old(balances), entries) then Ok(Txn(id, key, source, entries)) else Err(AccountNotFound)
    {
      ghost var before := View();
      ghost var stop := FirstUnknown(balances, entries);
      var row := |txns|;
      txns := txns + [Txn(id, key, source, [])];
      assert balances == Post(before.balances, []);
      for k := 0 to |entries|
        invariant k <= stop
        invariant row == |before.txns|
        invariant txns == before.txns + [Txn(id, key, source, entries[..k])]
        invariant balances == Post(before.balances, entries[..k])
      {
        var e := entries[k];
        if e.account !in balances {
          return Err(AccountNotFound);
        }
        txns := txns[row := txns[row].(entries := txns[row].entries + [e])];
        assert entries[..k] + [e] == entries[..k + 1];
        PostStep(before.balances, entries, k);
        balances := balances[e.account := balances[e.account] + BalanceChange(e.account.kind, e.side, e.amount)];
      }
      assert entries[..|entries|] == entries;
      return Ok(Txn(id, key, source, entries));
    }

    /**
     * Idempotent, validated posting. Without an outer transaction a failure rolls back to
     * the state before the call; inside one (`external`) the outer transaction does.
     */
    method RecordTransaction(id: string, key: Option<string>, source: Option<Keys.LedgerSource>,
                             entries: seq<Entry>, external: bool)
      returns (r: Recorded)
      modifies this
      ensures r.Hit? <==> key.Some? && HasKey(old(txns), key.value)
      ensures r.Hit? ==> r.txn in old(txns) && r.txn.key == key && View() == old(View())
      ensures r.Posted? <==> !r.Hit? && Balanced(entries) && Known(old(balances), entries)
      ensures r.Posted? ==> r.txn == Txn(id, key, source, entries) && View() == Append(old(View()), r.txn)
                            && txns == old(txns) + [r.txn] && balances.Keys == old(balances).Keys
                            && forall a :: a in balances ==> balances[a] == old(balances)[a] + Moved(entries, a)
      ensures r.Rejected? ==> r.error == if Validate(entries).Some? then Validate(entries).value else AccountNotFound
      ensures r.Rejected? && (!external || !Balanced(entries)) ==> View() == old(View())
      ensures old(Sound(View())) && !old(HasId(txns, id)) && (!external || !r.Rejected?) ==> Sound(View())
    {
      ghost var before := View();
      if key.Some? {
        var existing := FindByKey(key.value);
        if existing.Some? {
          return Hit(existing.value);
        }
      }
      var invalid := CheckEntries(entries);
      if invalid.Some? {
        return Rejected(invalid.value);
      }
      var savedBalances, savedTxns := balances, txns;
      var outcome := ExecuteRecord(id, key, source, entries);
      match outcome
      case Err(e) =>
        if !external {
          balances, txns := savedBalances, savedTxns;
        }
        return Rejected(e);
      case Ok(t) =>
        WholeList(before.balances, entries);
        if Sound(before) && !HasId(before.txns, id) {
          AppendSound(before, t);
        }
        return Posted(t);
    }
  }

  lemma PostStep(balances: map<Account, int>, entries: seq<Entry>, k: nat)
    requires k < |entries| && entries[k].account in balances
    ensures var e := entries[k];
            var b := Post(balances, entries[..k]);
            Post(balances, entries[..k + 1]) == b[e.account := b[e.account] + BalanceChange(e.account.kind, e.side, e.amount)]
  {
    assert entries[..k + 1][..k] == entries[..k];
    assert entries[..k + 1][k] == entries[k];
  }

  lemma WholeList(balances: map<Account, int>, entries: seq<Entry>)
    requires Known(balances, entries)
    ensures entries[..FirstUnknown(balances, entries)] == entries
  {
    assert FirstUnknown(balances, entries) == |entries|;
  }
}
