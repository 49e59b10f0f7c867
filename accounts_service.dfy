/**
 * `AccountsService.MakeDefault` of internal/entities/accounts.go: make one
 * account the user's default by saving every account the database lists
 * for the user with its flag cleared (the chosen one as it was), and then
 * the chosen one with its flag set.
 *
 * The calls are not inside a scope of their own: a failed save leaves the
 * saves before it in place.
 */
module AccountsService {
  import opened Wrappers
  import opened Uuids
  import opened Times
  import opened Errors
  import opened PgErrors
  import opened Accounts
  import opened Store

  /** The stored rows of `ids`, in that order. */
  function Rows(accounts: map<Uuid, AccountRec>, ids: seq<Uuid>): (r: seq<AccountRec>)
    requires forall k :: k in ids ==> k in accounts
    ensures |r| == |ids| && forall j :: 0 <= j < |ids| ==> r[j] == accounts[ids[j]]
  {
    if ids == [] then [] else Rows(accounts, ids[..|ids| - 1]) + [accounts[ids[|ids| - 1]]]
  }

  /** The row the loop saves for `a`: cleared, unless it is the one being made default. */
  function Unflagged(a: AccountRec, keep: Uuid, now: Time): (r: AccountRec)
    ensures r.id == a.id && r.userId == a.userId && r.balance == a.balance
    ensures r.isDefault == (a.isDefault && a.id == keep)
  {
    if a.id != keep then a.(isDefault := false, updatedAt := now) else a
  }

  /** The account rows once the loop has saved `rows`, one after another. */
  function ClearedDefaults(accounts: map<Uuid, AccountRec>, rows: seq<AccountRec>, keep: Uuid, now: Time)
    : map<Uuid, AccountRec>
    decreases |rows|
  {
    if rows == [] then accounts
    else
      var prev := ClearedDefaults(accounts, rows[..|rows| - 1], keep, now);
      var a := Unflagged(rows[|rows| - 1], keep, now);
      prev[a.id := UpsertAccount(prev, a)]
  }

  /** The account rows after a `MakeDefault` whose every save went through. */
  function Defaulted(accounts: map<Uuid, AccountRec>, rows: seq<AccountRec>, account: AccountRec, now: Time)
    : map<Uuid, AccountRec>
  {
    var cleared := ClearedDefaults(accounts, rows, account.id, now);
    cleared[account.id := UpsertAccount(cleared, account.(isDefault := true, updatedAt := now))]
  }

  /** One more turn of the loop saves one more row. */
  lemma ClearedStep(accounts: map<Uuid, AccountRec>, rows: seq<AccountRec>, i: nat, keep: Uuid, now: Time)
    requires i < |rows|
    ensures var prev := ClearedDefaults(accounts, rows[..i], keep, now);
            var a := Unflagged(rows[i], keep, now);
            ClearedDefaults(accounts, rows[..i + 1], keep, now) == prev[a.id := UpsertAccount(prev, a)]
  {
    assert rows[..i + 1][..i] == rows[..i];
  }

  /** The position of the first listed account whose save fails, or the length of the list. */
  function FirstFailing(order: seq<Uuid>, saveFaults: map<Uuid, Error>): (n: nat)
    ensures n <= |order|
    ensures forall j :: 0 <= j < n ==> order[j] !in saveFaults
    ensures n < |order| ==> order[n] in saveFaults
  {
    if order == [] then 0
    else if order[0] in saveFaults then 0
    else 1 + FirstFailing(order[1..], saveFaults)
  }

  /** The loop adds a row for each account it saves and removes none. */
  lemma {:induction false} ClearedKeys(accounts: map<Uuid, AccountRec>, rows: seq<AccountRec>, keep: Uuid, now: Time)
    ensures var r := ClearedDefaults(accounts, rows, keep, now);
            forall k :: k in r <==> k in accounts || exists j :: 0 <= j < |rows| && rows[j].id == k
    decreases |rows|
  {
    if rows != [] {
      var init := rows[..|rows| - 1];
      ClearedKeys(accounts, init, keep, now);
      var r := ClearedDefaults(accounts, rows, keep, now);
      forall k | k in r
        ensures k in accounts || exists j :: 0 <= j < |rows| && rows[j].id == k
      {
        if k != rows[|rows| - 1].id && k !in accounts {
          var j :| 0 <= j < |init| && init[j].id == k;
          assert rows[j] == init[j];
        }
      }
      forall k | k in accounts || exists j :: 0 <= j < |rows| && rows[j].id == k
        ensures k in r
      {
        if k !in accounts && k != rows[|rows| - 1].id {
          var j :| 0 <= j < |rows| && rows[j].id == k;
          assert j < |init| && init[j] == rows[j];
        }
      }
    }
  }

  /** A row the loop does not save keeps its stored value. */
  lemma {:induction false} ClearedUntouched(accounts: map<Uuid, AccountRec>, rows: seq<AccountRec>, keep: Uuid,
                                            now: Time, k: Uuid)
    requires forall j :: 0 <= j < |rows| ==> rows[j].id != k
    ensures var r := ClearedDefaults(accounts, rows, keep, now);
            (k in r <==> k in accounts) && (k in r ==> r[k] == accounts[k])
    decreases |rows|
  {
    if rows != [] {
      var init := rows[..|rows| - 1];
      assert forall j :: 0 <= j < |init| ==> init[j] == rows[j];
      ClearedUntouched(accounts, init, keep, now, k);
    }
  }

  /** A row the loop saves keeps its owner, and loses its flag unless it is `keep`. */
  lemma {:induction false} ClearedSaved(accounts: map<Uuid, AccountRec>, rows: seq<AccountRec>, keep: Uuid,
                                        now: Time, userId: Uuid)
    requires forall j :: 0 <= j < |rows| ==> rows[j].userId == userId
    ensures var r := ClearedDefaults(accounts, rows, keep, now);
            forall j :: 0 <= j < |rows| ==>
              rows[j].id in r && r[rows[j].id].userId == userId && (rows[j].id != keep ==> !r[rows[j].id].isDefault)
    decreases |rows|
  {
    if rows != [] {
      var init := rows[..|rows| - 1];
      assert forall j :: 0 <= j < |init| ==> init[j] == rows[j];
      ClearedSaved(accounts, init, keep, now, userId);
      var prev := ClearedDefaults(accounts, init, keep, now);
      var a := Unflagged(rows[|rows| - 1], keep, now);
      var r := prev[a.id := UpsertAccount(prev, a)];
      forall j | 0 <= j < |rows|
        ensures rows[j].id in r && r[rows[j].id].userId == userId && (rows[j].id != keep ==> !r[rows[j].id].isDefault)
      {
        if rows[j].id != a.id {
          assert j < |init| && r[rows[j].id] == prev[init[j].id];
        }
      }
    }
  }

  /**
   * The promise of `MakeDefault`: when the database listed all of the
   * user's accounts, afterwards the chosen account is the user's only
   * default one.
   */
  lemma DefaultIsExclusive(accounts: map<Uuid, AccountRec>, rows: seq<AccountRec>, account: AccountRec, now: Time)
    requires forall j :: 0 <= j < |rows| ==> rows[j].userId == account.userId
    requires forall k :: k in accounts && accounts[k].userId == account.userId ==>
               exists j :: 0 <= j < |rows| && rows[j].id == k
    ensures var r := Defaulted(accounts, rows, account, now);
            && account.id in r && r[account.id].isDefault
            && forall k :: k in r && r[k].userId == account.userId ==> (r[k].isDefault <==> k == account.id)
  {
    ClearedSaved(accounts, rows, account.id, now, account.userId);
    var cleared := ClearedDefaults(accounts, rows, account.id, now);
    var r := Defaulted(accounts, rows, account, now);
    forall k | k in r && r[k].userId == account.userId && k != account.id
      ensures !r[k].isDefault
    {
      assert k in cleared && r[k] == cleared[k];
      if forall j :: 0 <= j < |rows| ==> rows[j].id != k {
        ClearedUntouched(accounts, rows, account.id, now, k);
        assert false;
      }
    }
  }

  /**
   * `MakeDefault` keeps its promise: after a run whose saves all went
   * through, over the accounts the database listed, the chosen account is
   * the user's only default one.
   */
  lemma MakeDefaultExclusive(accounts: map<Uuid, AccountRec>, order: seq<Uuid>, account: AccountRec, now: Time)
    requires forall k :: k in accounts ==> accounts[k].id == k
    requires ListsUserAccounts(accounts, account.userId, order)
    ensures var r := Defaulted(accounts, Rows(accounts, order), account, now);
            && account.id in r && r[account.id].isDefault
            && forall k :: k in r && r[k].userId == account.userId ==> (r[k].isDefault <==> k == account.id)
  {
    var rows := Rows(accounts, order);
    forall k | k in accounts && accounts[k].userId == account.userId
      ensures exists j :: 0 <= j < |rows| && rows[j].id == k
    {
      var j :| 0 <= j < |order| && order[j] == k;
      assert rows[j] == accounts[k];
    }
    DefaultIsExclusive(accounts, rows, account, now);
  }

  /**
   * `MakeDefault`. `order` is the order of the rows `GetByUserID` returns,
   * `listFault` its driver failure, `saveFaults` the accounts whose loop
   * save fails and `finalFault` the failure of the last save.
   */
  method MakeDefault(s: Store, account: Account, order: seq<Uuid>, listFault: Option<Error>,
                     saveFaults: map<Uuid, Error>, finalFault: Option<Error>, now: Time) returns (err: Option<Error>)
    requires Keyed(s.State()) && ListsUserAccounts(s.accounts, account.userId, order)
    modifies s, account
    ensures s.scope == old(s.scope) && s.users == old(s.users) && s.transactions == old(s.transactions)
    ensures Keyed(s.State())
    ensures listFault.Some? ==>
              err == Some(RepoError(listFault.value, AccountsModel))
              && s.accounts == old(s.accounts) && account.Rec() == old(account.Rec())
    ensures listFault.None? && FirstFailing(order, saveFaults) < |order| ==>
              var n := FirstFailing(order, saveFaults);
              && err == Some(RepoError(saveFaults[order[n]], AccountsModel))
              && s.accounts == ClearedDefaults(old(s.accounts), Rows(old(s.accounts), order)[..n], account.id, now)
              && account.Rec() == old(account.Rec())
    ensures listFault.None? && FirstFailing(order, saveFaults) == |order| ==>
              account.Rec() == old(account.Rec()).(isDefault := true, updatedAt := now)
              && (finalFault.Some? ==>
                    err == Some(RepoError(finalFault.value, AccountsModel))
                    && s.accounts == ClearedDefaults(old(s.accounts), Rows(old(s.accounts), order), account.id, now))
              && (finalFault.None? ==>
                    err.None? && s.accounts == Defaulted(old(s.accounts), Rows(old(s.accounts), order), old(account.Rec()), now))
  {
    var listed := s.GetAccountsByUser(account.userId, order, listFault);
    if listed.Err? {
      return Some(listed.error);
    }
    err := ClearThenSet(s, account, listed.value, order, Rows(s.accounts, order), saveFaults, finalFault, now);
  }

  /** `MakeDefault` once the accounts are listed: the loop, then the save of the chosen account. */
  method ClearThenSet(s: Store, account: Account, all: seq<Account>, order: seq<Uuid>, ghost rows: seq<AccountRec>,
                      saveFaults: map<Uuid, Error>, finalFault: Option<Error>, now: Time) returns (err: Option<Error>)
    requires Keyed(s.State()) && |all| == |order| == |rows|
    requires forall j :: 0 <= j < |all| ==> all[j].Rec() == rows[j] && rows[j].id == order[j]
    requires forall i, j :: 0 <= i < j < |all| ==> all[i] != all[j]
    requires forall j :: 0 <= j < |all| ==> all[j] != account
    modifies s, account, set j | 0 <= j < |all| :: all[j]
    ensures s.scope == old(s.scope) && s.users == old(s.users) && s.transactions == old(s.transactions)
    ensures Keyed(s.State())
    ensures FirstFailing(order, saveFaults) < |order| ==>
              var n := FirstFailing(order, saveFaults);
              && err == Some(RepoError(saveFaults[order[n]], AccountsModel))
              && s.accounts == ClearedDefaults(old(s.accounts), rows[..n], account.id, now)
              && account.Rec() == old(account.Rec())
    ensures FirstFailing(order, saveFaults) == |order| ==>
              account.Rec() == old(account.Rec()).(isDefault := true, updatedAt := now)
              && (finalFault.Some? ==>
                    err == Some(RepoError(finalFault.value, AccountsModel))
                    && s.accounts == ClearedDefaults(old(s.accounts), rows, account.id, now))
              && (finalFault.None? ==>
                    err.None? && s.accounts == Defaulted(old(s.accounts), rows, old(account.Rec()), now))
  {
    err := SaveCleared(s, all, order, rows, account.id, saveFaults, now);
    if err.Some? {
      return;
    }
    account.UpdateDefault(true, now);
    err := s.SaveAccount(account, finalFault);
  }

  /**
   * The loop of `MakeDefault`: save each listed account, cleared unless it
   * is `keep`, and stop at the first save that fails.
   */
  method SaveCleared(s: Store, all: seq<Account>, order: seq<Uuid>, ghost rows: seq<AccountRec>, keep: Uuid,
                     saveFaults: map<Uuid, Error>, now: Time) returns (err: Option<Error>)
    requires Keyed(s.State()) && |all| == |order| == |rows|
    requires forall j :: 0 <= j < |all| ==> all[j].Rec() == rows[j] && rows[j].id == order[j]
    requires forall i, j :: 0 <= i < j < |all| ==> all[i] != all[j]
    modifies s, set j | 0 <= j < |all| :: all[j]
    ensures s.scope == old(s.scope) && s.users == old(s.users) && s.transactions == old(s.transactions)
    ensures Keyed(s.State())
    ensures var n := FirstFailing(order, saveFaults);
            && (n < |order| ==> err == Some(RepoError(saveFaults[order[n]], AccountsModel))
                                && s.accounts == ClearedDefaults(old(s.accounts), rows[..n], keep, now))
            && (n == |order| ==> err.None? && s.accounts == ClearedDefaults(old(s.accounts), rows, keep, now))
  {
    ghost var n := FirstFailing(order, saveFaults);
    var i := 0;
    while i < |all|
      invariant 0 <= i <= |all| && i <= n
      invariant s.scope == old(s.scope) && s.users == old(s.users) && s.transactions == old(s.transactions)
      invariant Keyed(s.State())
      invariant forall j :: i <= j < |all| ==> all[j].Rec() == rows[j]
      invariant s.accounts == ClearedDefaults(old(s.accounts), rows[..i], keep, now)
    {
      var a := all[i];
      assert forall j :: i < j < |all| ==> all[j] != a;
      ghost var prev := s.accounts;
      ghost var row := Unflagged(rows[i], keep, now);
      err := SaveOne(s, a, keep, if a.id in saveFaults then Some(saveFaults[a.id]) else None, now);
      if err.Some? {
        assert i == n;
        return;
      }
      assert i < n;
      assert a.Rec() == row;
      ClearedStep(old(s.accounts), rows, i, keep, now);
      assert s.accounts == prev[row.id := UpsertAccount(prev, row)];
      i := i + 1;
    }
    assert rows[..|all|] == rows;
    return None;
  }

  /** One turn of the loop of `MakeDefault`. */
  method SaveOne(s: Store, a: Account, keep: Uuid, fault: Option<Error>, now: Time) returns (err: Option<Error>)
    requires Keyed(s.State())
    modifies s, a
    ensures a.Rec() == Unflagged(old(a.Rec()), keep, now)
    ensures s.scope == old(s.scope) && s.users == old(s.users) && s.transactions == old(s.transactions)
    ensures Keyed(s.State())
    ensures err == (if fault.Some? then Some(RepoError(fault.value, AccountsModel)) else None)
    ensures fault.Some? ==> s.accounts == old(s.accounts)
    ensures fault.None? ==> s.accounts == old(s.accounts)[a.id := UpsertAccount(old(s.accounts), a.Rec())]
  {
    if a.id != keep {
      a.UpdateDefault(false, now);
    }
    err := s.SaveAccount(a, fault);
  }
}
