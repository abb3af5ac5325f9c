/**
 * The flat credit balance and its log (billing/credits.service.ts).
 *
 * Each method here is one call that nothing overlaps: it reads the log for its key,
 * changes the balance in place and appends to the log. What overlapping calls do to the
 * same rows is the subject of the Engine modules, which use the same value functions.
 */
module Credits {
  import opened Prelude
  import Keys

  datatype CreditType = PURCHASE | BONUS | USAGE | REFUND | ADJUSTMENT

  datatype CreditTxn = CreditTxn(user: string, amount: int, kind: CreditType, key: Option<string>, source: Option<Keys.CreditSource>)

  /** The credits rows by user, and the credit transaction log in commit order. */
  datatype Purse = Purse(balances: map<string, int>, log: seq<CreditTxn>)

  datatype Error = NonPositiveAmount | InsufficientCredits

  datatype Answer =
    | Existing(txn: CreditTxn, balance: int)
    | Applied(txn: CreditTxn, balance: int)
    | Refused(error: Error)

  function Balance(balances: map<string, int>, user: string): int {
    if user in balances then balances[user] else 0
  }

  function Apply(p: Purse, t: CreditTxn): Purse {
    Purse(p.balances[t.user := Balance(p.balances, t.user) + t.amount], p.log + [t])
  }

  function Logged(log: seq<CreditTxn>, user: string): int {
    if log == [] then 0
    else
      var last := log[|log| - 1];
      Logged(log[..|log| - 1], user) + (if last.user == user then last.amount else 0)
  }

  ghost predicate HasKey(log: seq<CreditTxn>, key: string) {
    exists k :: 0 <= k < |log| && log[k].key == Some(key)
  }

  /** How many log rows carry a key. */
  function Count(log: seq<CreditTxn>, key: string): nat {
    if log == [] then 0
    else Count(log[..|log| - 1], key) + (if log[|log| - 1].key == Some(key) then 1 else 0)
  }

  /**
   * No balance is negative and every balance is the opening balance plus the logged
   * amounts. `opening` is what the rows held before the log began.
   */
  ghost predicate Sound(p: Purse, opening: map<string, int>) {
    forall u :: Balance(p.balances, u) >= 0 && Balance(p.balances, u) == Balance(opening, u) + Logged(p.log, u)
  }

  lemma ApplySound(p: Purse, opening: map<string, int>, t: CreditTxn)
    requires Sound(p, opening)
    requires Balance(p.balances, t.user) + t.amount >= 0
    ensures Sound(Apply(p, t), opening)
  {
    var p' := Apply(p, t);
    assert p'.log[..|p'.log| - 1] == p.log;
    forall u ensures Balance(p'.balances, u) >= 0 && Balance(p'.balances, u) == Balance(opening, u) + Logged(p'.log, u) {
      assert Balance(p.balances, u) == Balance(opening, u) + Logged(p.log, u);
    }
  }

  lemma {:induction false} CountZero(log: seq<CreditTxn>, key: string)
    ensures Count(log, key) == 0 <==> !HasKey(log, key)
  {
    if log != [] {
      var n := |log| - 1;
      CountZero(log[..n], key);
      if HasKey(log[..n], key) {
        var k :| 0 <= k < n && log[..n][k].key == Some(key);
        assert log[k].key == Some(key);
      }
      if HasKey(log, key) && log[n].key != Some(key) {
        var k :| 0 <= k < |log| && log[k].key == Some(key);
        assert log[..n][k].key == Some(key);
      }
    }
  }

  lemma CountAppend(log: seq<CreditTxn>, t: CreditTxn, key: string)
    ensures Count(log + [t], key) == Count(log, key) + (if t.key == Some(key) then 1 else 0)
  {
    assert (log + [t])[..|log|] == log;
  }

  ghost predicate KeysUnique(log: seq<CreditTxn>) {
    forall key :: Count(log, key) <= 1
  }

  lemma ApplyKeysUnique(log: seq<CreditTxn>, t: CreditTxn)
    requires KeysUnique(log)
    requires t.key.Some? ==> !HasKey(log, t.key.value)
    ensures KeysUnique(log + [t])
  {
    forall key ensures Count(log + [t], key) <= 1 {
      CountAppend(log, t, key);
      CountZero(log, key);
      assert Count(log, key) <= 1;
    }
  }

  class CreditsService {
    var balances: map<string, int>
    var log: seq<CreditTxn>

    ghost function View(): Purse
      reads this
    {
      Purse(balances, log)
    }

    constructor (opening: map<string, int>)
      requires forall u :: u in opening ==> opening[u] >= 0
      ensures Sound(View(), opening) && balances == opening && log == []
    {
      balances := opening;
      log := [];
    }

    /** Zero for a user without a row; on sound rows never negative, and what the user started with plus everything logged. */
    method GetBalance(user: string) returns (balance: int)
      ensures user !in balances ==> balance == 0
      ensures user in balances ==> balance == balances[user]
      ensures forall opening: map<string, int> :: Sound(View(), opening) ==>
                balance >= 0 && balance == Balance(opening, user) + Logged(log, user)
    {
      balance := if user in balances then balances[user] else 0;
      assert balance == Balance(View().balances, user);
    }

    /** The lookup of a key in the log's metadata; an absent or empty key is None. */
    method FindByKey(key: Option<string>) returns (found: Option<CreditTxn>)
      ensures found.None? <==> key.None? || !HasKey(log, key.value)
      ensures found.Some? ==> found.value in log && found.value.key == key
    {
      if key.None? {
        return None;
      }
      for k := 0 to |log|
        invariant forall j :: 0 <= j < k ==> log[j].key != key
      {
        if log[k].key == key {
          return Some(log[k]);
        }
      }
      return None;
    }

    /** The shared body of addCredits and refundCredits. */
    method Grant(user: string, amount: int, kind: CreditType, key: string, source: Option<Keys.CreditSource>,
        ghost opening: map<string, int>)
      returns (a: Answer)
      requires Sound(View(), opening)
      modifies this
      ensures amount <= 0 ==> a == Refused(NonPositiveAmount) && View() == old(View())
      ensures amount > 0 && HasKey(old(log), key) ==>
                a.Existing? && a.txn in old(log) && a.txn.key == Some(key) && a.balance == Balance(balances, user) && View() == old(View())
      ensures amount > 0 && !HasKey(old(log), key) ==>
                a.Applied? && a.txn == CreditTxn(user, amount, kind, Some(key), source) && View() == Apply(old(View()), a.txn)
                && a.balance == (if user in old(balances) then old(balances)[user] else 0) + amount
                && balances == old(balances)[user := a.balance] && log == old(log) + [a.txn]
      ensures Sound(View(), opening)
      ensures old(KeysUnique(log)) ==> KeysUnique(log)
    {
      if amount <= 0 {
        return Refused(NonPositiveAmount);
      }
      var existing := FindByKey(Some(key));
      if existing.Some? {
        var current := GetBalance(user);
        return Existing(existing.value, current);
      }
      var t := CreditTxn(user, amount, kind, Some(key), source);
      ApplySound(View(), opening, t);
      if KeysUnique(log) {
        ApplyKeysUnique(log, t);
      }
      if user in balances {
        balances := balances[user := balances[user] + amount];
      } else {
        balances := balances[user := amount];
      }
      log := log + [t];
      return Applied(t, balances[user]);
    }

    method AddCredits(user: string, amount: int, kind: CreditType, key: string, source: Option<Keys.CreditSource>,
        ghost opening: map<string, int>)
      returns (a: Answer)
      requires Sound(View(), opening)
      modifies this
      ensures a.Applied? <==> amount > 0 && !HasKey(old(log), key)
      ensures a.Applied? ==> a.txn == CreditTxn(user, amount, kind, Some(key), source) && View() == Apply(old(View()), a.txn)
                             && balances == old(balances)[user := (if user in old(balances) then old(balances)[user] else 0) + amount]
                             && log == old(log) + [a.txn]
      ensures !a.Applied? ==> View() == old(View()) && (a.Refused? <==> amount <= 0)
      ensures Sound(View(), opening)
      ensures old(KeysUnique(log)) ==> KeysUnique(log)
    {
      a := Grant(user, amount, kind, key, source, opening);
    }

    method RefundCredits(user: string, amount: int, key: string, source: Option<Keys.CreditSource>,
        ghost opening: map<string, int>)
      returns (a: Answer)
      requires Sound(View(), opening)
      modifies this
      ensures a.Applied? <==> amount > 0 && !HasKey(old(log), key)
      ensures a.Applied? ==> a.txn == CreditTxn(user, amount, REFUND, Some(key), source) && View() == Apply(old(View()), a.txn)
                             && balances == old(balances)[user := (if user in old(balances) then old(balances)[user] else 0) + amount]
                             && log == old(log) + [a.txn]
      ensures !a.Applied? ==> View() == old(View()) && (a.Refused? <==> amount <= 0)
      ensures Sound(View(), opening)
      ensures old(KeysUnique(log)) ==> KeysUnique(log)
    {
      a := Grant(user, amount, REFUND, key, source, opening);
    }

    /** Never takes a balance below zero; a repeated key takes nothing. */
    method DeductCredits(user: string, amount: int, key: Option<string>, source: Option<Keys.CreditSource>,
        ghost opening: map<string, int>)
      returns (a: Answer)
      requires Sound(View(), opening)
      modifies this
      ensures a.Existing? <==> amount > 0 && key.Some? && HasKey(old(log), key.value)
      ensures a.Applied? <==> amount > 0 && !a.Existing? && user in old(balances) && old(balances)[user] >= amount
      ensures a.Applied? ==> a.txn == CreditTxn(user, -amount, USAGE, key, source) && View() == Apply(old(View()), a.txn)
                             && a.balance == old(balances)[user] - amount
                             && balances == old(balances)[user := a.balance] && log == old(log) + [a.txn]
      ensures !a.Applied? ==> View() == old(View())
      ensures a.Refused? ==> a.error == if amount <= 0 then NonPositiveAmount else InsufficientCredits
      ensures Sound(View(), opening)
      ensures old(KeysUnique(log)) ==> KeysUnique(log)
    {
      if amount <= 0 {
        return Refused(NonPositiveAmount);
      }
      var existing := FindByKey(key);
      if existing.Some? {
        var current := GetBalance(user);
        return Existing(existing.value, current);
      }
      if user !in balances || balances[user] < amount {
        return Refused(InsufficientCredits);
      }
      var t := CreditTxn(user, -amount, USAGE, key, source);
      ApplySound(View(), opening, t);
      if KeysUnique(log) {
        ApplyKeysUnique(log, t);
      }
      balances := balances[user := balances[user] - amount];
      log := log + [t];
      return Applied(t, balances[user]);
    }
  }
}
