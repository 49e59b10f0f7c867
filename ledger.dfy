/**
 * The ledger invariant behind the account balance cache: every account's
 * stored balance is the `int64` sum of the effects of the stored
 * transactions posted against it.
 */
module Ledger {
  import opened Uuids
  import opened Money
  import opened Transactions
  import opened Accounts

  /** What one stored transaction contributes to the balance of `account`. */
  function Contribution(t: TxRec, account: Uuid): int {
    if t.accountId == account then TxEffect(t) else 0
  }

  /** The sum of the effects of the transactions posted against `account`. */
  ghost function SumEffects(txs: map<Uuid, TxRec>, account: Uuid): int
    decreases |txs.Keys|
  {
    if txs.Keys == {} then 0
    else
      var k :| k in txs;
      Contribution(txs[k], account) + SumEffects(txs - {k}, account)
  }

  /** Every account's balance is the wrapped sum of its postings. */
  ghost predicate Consistent(accounts: map<Uuid, AccountRec>, txs: map<Uuid, TxRec>) {
    forall id :: id in accounts ==> accounts[id].balance == Wrap64(SumEffects(txs, id))
  }

  /** Any stored transaction can be taken out of the sum first. */
  lemma {:induction false} SumRemove(txs: map<Uuid, TxRec>, k: Uuid, account: Uuid)
    requires k in txs
    ensures SumEffects(txs, account) == Contribution(txs[k], account) + SumEffects(txs - {k}, account)
    decreases |txs.Keys|
  {
    var j :| j in txs && SumEffects(txs, account) == Contribution(txs[j], account) + SumEffects(txs - {j}, account);
    if j != k {
      var withoutJ, withoutK := txs - {j}, txs - {k};
      Shrinks(txs, j);
      Shrinks(txs, k);
      SumRemove(withoutJ, k, account);
      SumRemove(withoutK, j, account);
      assert withoutJ[k] == txs[k] && withoutK[j] == txs[j];
      DropBoth(txs, j, k);
    }
  }

  /** Taking a stored key out of a map leaves fewer keys. */
  lemma Shrinks(txs: map<Uuid, TxRec>, k: Uuid)
    requires k in txs
    ensures |(txs - {k}).Keys| < |txs.Keys|
  {
    assert (txs - {k}).Keys == txs.Keys - {k};
  }

  /** Taking two keys out of a map gives the same map in either order. */
  lemma DropBoth(txs: map<Uuid, TxRec>, j: Uuid, k: Uuid)
    ensures txs - {j} - {k} == txs - {k} - {j}
  {
  }

  /** Storing `t` under `k` replaces whatever `k` contributed before by what `t` contributes. */
  lemma SumStore(txs: map<Uuid, TxRec>, k: Uuid, t: TxRec, account: Uuid)
    ensures SumEffects(txs[k := t], account) == SumEffects(txs - {k}, account) + Contribution(t, account)
  {
    SumRemove(txs[k := t], k, account);
    assert txs[k := t] - {k} == txs - {k};
  }

  /** Removing a key that is not stored changes nothing. */
  lemma SumWithoutAbsent(txs: map<Uuid, TxRec>, k: Uuid, account: Uuid)
    requires k !in txs
    ensures SumEffects(txs - {k}, account) == SumEffects(txs, account)
  {
    assert txs - {k} == txs;
  }

  /**
   * Posting a new transaction `t` and storing its account with the balance
   * after `Applied` keeps the ledger consistent.
   */
  lemma PostKeepsConsistent(accounts: map<Uuid, AccountRec>, txs: map<Uuid, TxRec>, t: TxRec, a: AccountRec)
    requires Consistent(accounts, txs)
    requires t.id !in txs && t.accountId in accounts && a.id == t.accountId
    requires a.balance == Applied(accounts[a.id].balance, t.trnType, t.amount)
    ensures Consistent(accounts[a.id := a], txs[t.id := t])
  {
    var txs2 := txs[t.id := t];
    forall id | id in accounts[a.id := a]
      ensures accounts[a.id := a][id].balance == Wrap64(SumEffects(txs2, id))
    {
      SumStore(txs, t.id, t, id);
      SumWithoutAbsent(txs, t.id, id);
      if id == a.id {
        WrapAdd(SumEffects(txs, id), TxEffect(t));
      }
    }
  }

  /**
   * Replacing stored transaction `u` by `t` on the same account, and storing
   * that account with the balance after reverting `u` and applying `t`,
   * keeps the ledger consistent.
   */
  lemma RepostKeepsConsistent(accounts: map<Uuid, AccountRec>, txs: map<Uuid, TxRec>, t: TxRec, a: AccountRec)
    requires Consistent(accounts, txs)
    requires t.id in txs && txs[t.id].accountId == t.accountId
    requires t.accountId in accounts && a.id == t.accountId
    requires a.balance == Applied(Reverted(accounts[a.id].balance, txs[t.id].trnType, txs[t.id].amount), t.trnType, t.amount)
    ensures Consistent(accounts[a.id := a], txs[t.id := t])
  {
    var u := txs[t.id];
    var txs2 := txs[t.id := t];
    forall id | id in accounts[a.id := a]
      ensures accounts[a.id := a][id].balance == Wrap64(SumEffects(txs2, id))
    {
      SumStore(txs, t.id, t, id);
      SumRemove(txs, t.id, id);
      if id == a.id {
        var s := SumEffects(txs, id);
        RevertThenApply(accounts[id].balance, u.trnType, u.amount, t.trnType, t.amount);
        WrapAdd(s, TxEffect(t) - TxEffect(u));
        assert s + (TxEffect(t) - TxEffect(u)) == SumEffects(txs2, id);
      }
    }
  }

  /**
   * Deleting stored transaction `u`, and storing its account with the
   * balance after reverting `u`, keeps the ledger consistent.
   */
  lemma UnpostKeepsConsistent(accounts: map<Uuid, AccountRec>, txs: map<Uuid, TxRec>, k: Uuid, a: AccountRec)
    requires Consistent(accounts, txs)
    requires k in txs && txs[k].accountId in accounts && a.id == txs[k].accountId
    requires a.balance == Reverted(accounts[a.id].balance, txs[k].trnType, txs[k].amount)
    ensures Consistent(accounts[a.id := a], txs - {k})
  {
    var u := txs[k];
    forall id | id in accounts[a.id := a]
      ensures accounts[a.id := a][id].balance == Wrap64(SumEffects(txs - {k}, id))
    {
      SumRemove(txs, k, id);
      if id == a.id {
        WrapAdd(SumEffects(txs, id), -TxEffect(u));
      }
    }
  }

  /** Storing an account again with its balance untouched keeps the ledger consistent. */
  lemma RestoreKeepsConsistent(accounts: map<Uuid, AccountRec>, txs: map<Uuid, TxRec>, a: AccountRec)
    requires Consistent(accounts, txs)
    requires a.id in accounts && a.balance == accounts[a.id].balance
    ensures Consistent(accounts[a.id := a], txs)
  {
  }

  /** Removing an account keeps the ledger consistent for the others. */
  lemma RemoveAccountKeepsConsistent(accounts: map<Uuid, AccountRec>, txs: map<Uuid, TxRec>, id: Uuid)
    requires Consistent(accounts, txs)
    ensures Consistent(accounts - {id}, txs)
  {
  }

  /** With no postings the sum is zero. */
  lemma {:induction false} SumOfUnposted(txs: map<Uuid, TxRec>, account: Uuid)
    requires forall k :: k in txs ==> txs[k].accountId != account
    ensures SumEffects(txs, account) == 0
    decreases |txs.Keys|
  {
    if txs.Keys != {} {
      var k :| k in txs;
      SumRemove(txs, k, account);
      assert (txs - {k}).Keys == txs.Keys - {k};
      SumOfUnposted(txs - {k}, account);
    }
  }

  /**
   * Opening an account under an id nothing is posted against, with a
   * balance equal to the effect of its opening transaction `t` (or zero and
   * no transaction), keeps the ledger consistent.
   */
  lemma OpenKeepsConsistent(accounts: map<Uuid, AccountRec>, txs: map<Uuid, TxRec>, a: AccountRec, t: TxRec)
    requires Consistent(accounts, txs)
    requires a.id !in accounts && forall k :: k in txs ==> txs[k].accountId != a.id
    requires t.id !in txs && t.accountId == a.id && a.balance == Wrap64(TxEffect(t))
    ensures Consistent(accounts[a.id := a], txs[t.id := t])
  {
    var txs2 := txs[t.id := t];
    forall id | id in accounts[a.id := a]
      ensures accounts[a.id := a][id].balance == Wrap64(SumEffects(txs2, id))
    {
      SumStore(txs, t.id, t, id);
      SumWithoutAbsent(txs, t.id, id);
      if id == a.id {
        SumOfUnposted(txs, id);
      }
    }
  }

  lemma OpenEmptyKeepsConsistent(accounts: map<Uuid, AccountRec>, txs: map<Uuid, TxRec>, a: AccountRec)
    requires Consistent(accounts, txs)
    requires a.id !in accounts && forall k :: k in txs ==> txs[k].accountId != a.id
    requires a.balance == 0
    ensures Consistent(accounts[a.id := a], txs)
  {
    SumOfUnposted(txs, a.id);
  }
}
