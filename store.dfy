/**
 * The database as the commands see it: the users, accounts and transactions
 * tables, the repository calls of internal/infrastructure/repository on
 * them, and the open `WithTx` scope of pkg/database/postgres/trx.go.
 *
 * A driver failure is a parameter of each call (`fault`); the repository
 * maps it with `postgres.Error` for its model name.
 */
module Store {
  import opened Wrappers
  import opened Uuids
  import opened Times
  import opened Errors
  import opened PgErrors
  import opened Transactions
  import opened Accounts
  import opened Users
  import opened Money
  import Ledger
  import Trx

  /** The names `postgres.Error` gives the three tables' errors. */
  const AccountsModel := "Accounts"
  const TransactionsModel := "Transactions"
  const UsersModel := "Users"

  /** The rows of the three tables. */
  datatype Tables = Tables(users: map<Uuid, UserRec>, accounts: map<Uuid, AccountRec>, transactions: map<Uuid, TxRec>)

  /** The row an account upsert leaves: every column but `created_at` is overwritten. */
  function UpsertAccount(rows: map<Uuid, AccountRec>, a: AccountRec): (r: AccountRec)
    ensures r.balance == a.balance && r.id == a.id && r.userId == a.userId
  {
    if a.id in rows then a.(createdAt := rows[a.id].createdAt) else a
  }

  /**
   * The row a transaction upsert leaves: every column but `created_at` and
   * `subcategory_id` is overwritten.
   */
  function UpsertTx(rows: map<Uuid, TxRec>, t: TxRec): (r: TxRec)
    ensures r.id == t.id && r.accountId == t.accountId && r.trnType == t.trnType && r.amount == t.amount
    ensures TxEffect(r) == TxEffect(t)
  {
    if t.id in rows then t.(createdAt := rows[t.id].createdAt, subcategory := rows[t.id].subcategory) else t
  }

  /** The row a user upsert leaves: `created_at` survives, and the table has no time zone column. */
  function UpsertUser(rows: map<Uuid, UserRec>, u: UserRec): (r: UserRec)
    ensures r.id == u.id && r.tgUserId == u.tgUserId && r.timezone == ""
  {
    (if u.id in rows then u.(createdAt := rows[u.id].createdAt) else u).(timezone := "")
  }

  /** Every row is stored under its own primary key. */
  ghost predicate Keyed(t: Tables) {
    (forall k :: k in t.users ==> t.users[k].id == k)
    && (forall k :: k in t.accounts ==> t.accounts[k].id == k)
    && (forall k :: k in t.transactions ==> t.transactions[k].id == k)
  }

  /** The driver failure, if any, of each database call a command makes. */
  datatype Faults = Faults(
    findUser: Option<Error>, begin: Option<Error>, getTx: Option<Error>, getAccount: Option<Error>,
    saveAccount: Option<Error>, saveTx: Option<Error>, deleteTx: Option<Error>, deleteAccount: Option<Error>,
    saveUser: Option<Error>, rollback: Option<Error>, commit: Option<Error>)

  /** The tables after posting the new transaction `t` and saving its account. */
  function Posted(before: Tables, t: TxRec, now: Time): (after: Tables)
    requires t.accountId in before.accounts
    ensures after.users == before.users
    ensures after.accounts.Keys == before.accounts.Keys
  {
    var a := before.accounts[t.accountId];
    var a2 := a.(balance := Applied(a.balance, t.trnType, t.amount), updatedAt := now);
    before.(accounts := before.accounts[t.accountId := UpsertAccount(before.accounts, a2)],
            transactions := before.transactions[t.id := UpsertTx(before.transactions, t)])
  }

  /** The tables after moving the stored transaction `u` to its new state `t` and saving the account. */
  function Reposted(before: Tables, u: TxRec, t: TxRec, now: Time): (after: Tables)
    requires t.accountId in before.accounts
    ensures after.users == before.users
    ensures after.accounts.Keys == before.accounts.Keys
  {
    var a := before.accounts[t.accountId];
    var a2 := a.(balance := Applied(Reverted(a.balance, u.trnType, u.amount), t.trnType, t.amount), updatedAt := now);
    before.(accounts := before.accounts[t.accountId := UpsertAccount(before.accounts, a2)],
            transactions := before.transactions[t.id := UpsertTx(before.transactions, t)])
  }

  /** The tables after taking the stored transaction `u` back and deleting its row. */
  function Unposted(before: Tables, u: TxRec, now: Time): (after: Tables)
    requires u.accountId in before.accounts
    ensures after.users == before.users
    ensures after.accounts.Keys == before.accounts.Keys
    ensures u.id !in after.transactions
  {
    var a := before.accounts[u.accountId];
    var a2 := a.(balance := Reverted(a.balance, u.trnType, u.amount), updatedAt := now);
    before.(accounts := before.accounts[u.accountId := UpsertAccount(before.accounts, a2)],
            transactions := before.transactions - {u.id})
  }

  /** Posting moves the account's balance by the transaction's effect and touches no other account. */
  lemma PostedDelta(before: Tables, t: TxRec, now: Time)
    requires Keyed(before) && t.accountId in before.accounts
    requires InInt64(before.accounts[t.accountId].balance)
    ensures var after := Posted(before, t, now);
            after.accounts[t.accountId].balance == Wrap64(before.accounts[t.accountId].balance + TxEffect(t))
            && (forall k :: k in before.accounts && k != t.accountId ==> after.accounts[k] == before.accounts[k])
            && after.transactions[t.id].amount == t.amount
  {
  }

  /** Re-posting moves the balance by effect(new) − effect(old). */
  lemma RepostedDelta(before: Tables, u: TxRec, t: TxRec, now: Time)
    requires Keyed(before) && t.accountId in before.accounts
    requires InInt64(before.accounts[t.accountId].balance)
    ensures var after := Reposted(before, u, t, now);
            after.accounts[t.accountId].balance
              == Wrap64(before.accounts[t.accountId].balance + (TxEffect(t) - TxEffect(u)))
            && (forall k :: k in before.accounts && k != t.accountId ==> after.accounts[k] == before.accounts[k])
  {
    var b := before.accounts[t.accountId].balance;
    RevertThenApply(b, u.trnType, u.amount, t.trnType, t.amount);
  }

  /** Un-posting moves the balance by −effect and removes the row. */
  lemma UnpostedDelta(before: Tables, u: TxRec, now: Time)
    requires Keyed(before) && u.accountId in before.accounts
    requires InInt64(before.accounts[u.accountId].balance)
    ensures var after := Unposted(before, u, now);
            after.accounts[u.accountId].balance == Wrap64(before.accounts[u.accountId].balance - TxEffect(u))
            && (forall k :: k in before.accounts && k != u.accountId ==> after.accounts[k] == before.accounts[k])
            && after.transactions == before.transactions - {u.id}
  {
  }

  /**
   * Creating a transaction and then deleting it puts back the balance and
   * the transactions table as they were.
   */
  lemma CreateThenDeleteRestores(before: Tables, t: TxRec, n1: Time, n2: Time)
    requires Keyed(before) && t.accountId in before.accounts && t.id !in before.transactions
    requires InInt64(before.accounts[t.accountId].balance)
    ensures var mid := Posted(before, t, n1);
            var after := Unposted(mid, mid.transactions[t.id], n2);
            after.accounts[t.accountId].balance == before.accounts[t.accountId].balance
            && after.transactions == before.transactions
  {
    var mid := Posted(before, t, n1);
    var b := before.accounts[t.accountId].balance;
    assert mid.accounts[t.accountId].balance == Applied(b, t.trnType, t.amount);
    assert mid.transactions[t.id] == t;
    RevertInvertsApply(b, t.trnType, t.amount);
    assert before.transactions[t.id := t] - {t.id} == before.transactions;
  }

  /** Posting a transaction under a fresh id keeps the ledger consistent. */
  lemma PostedConsistent(before: Tables, t: TxRec, now: Time)
    requires Keyed(before) && Ledger.Consistent(before.accounts, before.transactions)
    requires t.accountId in before.accounts && t.id !in before.transactions
    ensures var after := Posted(before, t, now);
            Keyed(after) && Ledger.Consistent(after.accounts, after.transactions)
  {
    var a := before.accounts[t.accountId];
    var a2 := a.(balance := Applied(a.balance, t.trnType, t.amount), updatedAt := now);
    Ledger.PostKeepsConsistent(before.accounts, before.transactions, t, UpsertAccount(before.accounts, a2));
  }

  /** Re-posting a stored transaction on its own account keeps the ledger consistent. */
  lemma RepostedConsistent(before: Tables, t: TxRec, now: Time)
    requires Keyed(before) && Ledger.Consistent(before.accounts, before.transactions)
    requires t.id in before.transactions && before.transactions[t.id].accountId == t.accountId
    requires t.accountId in before.accounts
    ensures var after := Reposted(before, before.transactions[t.id], t, now);
            Keyed(after) && Ledger.Consistent(after.accounts, after.transactions)
  {
    var u := before.transactions[t.id];
    var a := before.accounts[t.accountId];
    var a2 := a.(balance := Applied(Reverted(a.balance, u.trnType, u.amount), t.trnType, t.amount), updatedAt := now);
    var t2 := UpsertTx(before.transactions, t);
    Ledger.RepostKeepsConsistent(before.accounts, before.transactions, t2, UpsertAccount(before.accounts, a2));
  }

  /** Un-posting a stored transaction keeps the ledger consistent. */
  lemma UnpostedConsistent(before: Tables, k: Uuid, now: Time)
    requires Keyed(before) && Ledger.Consistent(before.accounts, before.transactions)
    requires k in before.transactions && before.transactions[k].accountId in before.accounts
    ensures var after := Unposted(before, before.transactions[k], now);
            Keyed(after) && Ledger.Consistent(after.accounts, after.transactions)
  {
    var u := before.transactions[k];
    var a := before.accounts[u.accountId];
    var a2 := a.(balance := Reverted(a.balance, u.trnType, u.amount), updatedAt := now);
    Ledger.UnpostKeepsConsistent(before.accounts, before.transactions, k, UpsertAccount(before.accounts, a2));
  }

  /**
   * `order` is the order in which the database returns a user's accounts:
   * each of them once, and nothing else.
   */
  ghost predicate ListsUserAccounts(accounts: map<Uuid, AccountRec>, userId: Uuid, order: seq<Uuid>) {
    (forall i, j :: 0 <= i < j < |order| ==> order[i] != order[j])
    && (forall k :: k in order <==> k in accounts && accounts[k].userId == userId)
  }

  class Store {
    var users: map<Uuid, UserRec>
    var accounts: map<Uuid, AccountRec>
    var transactions: map<Uuid, TxRec>
    /** The tables as they were when the open `WithTx` scope began, if one is open. */
    var scope: Option<Tables>

    function State(): Tables
      reads this
    {
      Tables(users, accounts, transactions)
    }

    /** The ledger invariant over the stored rows. */
    ghost predicate Consistent()
      reads this
    {
      Ledger.Consistent(accounts, transactions)
    }

    constructor (init: Tables)
      ensures State() == init && scope.None?
    {
      users, accounts, transactions := init.users, init.accounts, init.transactions;
      scope := None;
    }

    /** The begin half of `WithTx`: a failed begin opens nothing. */
    method Begin(fault: Option<Error>) returns (err: Option<Error>)
      requires scope.None?
      modifies this
      ensures State() == old(State())
      ensures fault.Some? ==> err == Some(Wrapped("failed to begin transaction: ", fault.value)) && scope.None?
      ensures fault.None? ==> err.None? && scope == Some(State())
    {
      if fault.Some? {
        return Some(Wrapped("failed to begin transaction: ", fault.value));
      }
      scope := Some(State());
      return None;
    }

    /**
     * The end half of `WithTx`, given what the function returned: commit
     * keeps the tables, and anything else puts back the tables of `Begin`.
     */
    method Finish(fnErr: Option<Error>, rbFault: Option<Error>, commitFault: Option<Error>) returns (err: Option<Error>)
      requires scope.Some?
      modifies this
      ensures err == Trx.WithTx(None, Trx.Returned(fnErr), rbFault, commitFault).err
      ensures err.None? <==> fnErr.None? && commitFault.None?
      ensures fnErr.Some? && rbFault.None? ==> err == fnErr
      ensures err.None? ==> State() == old(State())
      ensures err.Some? ==> State() == old(scope.value)
      ensures scope.None?
    {
      if fnErr.Some? {
        users, accounts, transactions := scope.value.users, scope.value.accounts, scope.value.transactions;
        scope := None;
        if rbFault.Some? {
          return Some(Plain("tx err: " + Message(fnErr.value) + ", rb err: " + Message(rbFault.value)));
        }
        return fnErr;
      }
      if commitFault.Some? {
        users, accounts, transactions := scope.value.users, scope.value.accounts, scope.value.transactions;
      }
      scope := None;
      return commitFault;
    }

    /** `accountsRepo.GetByID` (and the locking read the commands call): the stored row as a new object. */
    method GetAccount(id: Uuid, fault: Option<Error>) returns (r: Result<Account>)
      ensures fault.Some? ==> r == Err(RepoError(fault.value, AccountsModel))
      ensures fault.None? && id !in accounts ==> r == Err(NotFound(AccountsModel))
      ensures fault.None? && id in accounts ==> r.Ok? && fresh(r.value) && r.value.Rec() == accounts[id]
    {
      if fault.Some? {
        return Err(RepoError(fault.value, AccountsModel));
      }
      if id !in accounts {
        return Err(NotFound(AccountsModel));
      }
      var a := new Account.FromRec(accounts[id]);
      return Ok(a);
    }

    /** `accountsRepo.Save`: an upsert keyed by id. */
    method SaveAccount(a: Account, fault: Option<Error>) returns (err: Option<Error>)
      modifies this
      ensures fault.Some? ==> err == Some(RepoError(fault.value, AccountsModel)) && State() == old(State())
      ensures fault.None? ==> err.None?
      ensures fault.None? ==> State() == old(State()).(accounts := old(accounts)[a.id := UpsertAccount(old(accounts), a.Rec())])
      ensures scope == old(scope)
    {
      if fault.Some? {
        return Some(RepoError(fault.value, AccountsModel));
      }
      accounts := accounts[a.id := UpsertAccount(accounts, a.Rec())];
      return None;
    }

    /** `accountsRepo.GetByUserID`: a new object for each of the user's rows, in the database's order. */
    method GetAccountsByUser(userId: Uuid, order: seq<Uuid>, fault: Option<Error>) returns (r: Result<seq<Account>>)
      requires ListsUserAccounts(accounts, userId, order)
      ensures fault.Some? ==> r == Err(RepoError(fault.value, AccountsModel))
      ensures fault.None? ==> r.Ok? && |r.value| == |order|
      ensures r.Ok? ==> forall j :: 0 <= j < |r.value| ==> fresh(r.value[j]) && r.value[j].Rec() == accounts[order[j]]
      ensures r.Ok? ==> forall i, j :: 0 <= i < j < |r.value| ==> r.value[i] != r.value[j]
    {
      if fault.Some? {
        return Err(RepoError(fault.value, AccountsModel));
      }
      var list: seq<Account> := [];
      var i := 0;
      while i < |order|
        invariant 0 <= i <= |order| && |list| == i
        invariant forall j :: 0 <= j < i ==> fresh(list[j]) && list[j].Rec() == accounts[order[j]]
        invariant forall j, k :: 0 <= j < k < i ==> list[j] != list[k]
      {
        var a := new Account.FromRec(accounts[order[i]]);
        list := list + [a];
        i := i + 1;
      }
      return Ok(list);
    }

    /** `accountsRepo.Delete`: deleting an absent id is not an error. */
    method DeleteAccount(id: Uuid, fault: Option<Error>) returns (err: Option<Error>)
      modifies this
      ensures fault.Some? ==> err == Some(RepoError(fault.value, AccountsModel)) && State() == old(State())
      ensures fault.None? ==> err.None? && State() == old(State()).(accounts := old(accounts) - {id})
      ensures scope == old(scope)
    {
      if fault.Some? {
        return Some(RepoError(fault.value, AccountsModel));
      }
      accounts := accounts - {id};
      return None;
    }

    /** `transactionsRepo.GetByID`: the stored row as a new object. */
    method GetTransaction(id: Uuid, fault: Option<Error>) returns (r: Result<Transaction>)
      ensures fault.Some? ==> r == Err(RepoError(fault.value, TransactionsModel))
      ensures fault.None? && id !in transactions ==> r == Err(NotFound(TransactionsModel))
      ensures fault.None? && id in transactions ==> r.Ok? && fresh(r.value) && r.value.Rec() == transactions[id]
    {
      if fault.Some? {
        return Err(RepoError(fault.value, TransactionsModel));
      }
      if id !in transactions {
        return Err(NotFound(TransactionsModel));
      }
      var t := new Transaction.FromRec(transactions[id]);
      return Ok(t);
    }

    /** `transactionsRepo.Save`: an upsert keyed by id. */
    method SaveTransaction(t: Transaction, fault: Option<Error>) returns (err: Option<Error>)
      modifies this
      ensures fault.Some? ==> err == Some(RepoError(fault.value, TransactionsModel)) && State() == old(State())
      ensures fault.None? ==> err.None?
      ensures fault.None? ==> State() == old(State()).(transactions := old(transactions)[t.id := UpsertTx(old(transactions), t.Rec())])
      ensures scope == old(scope)
    {
      if fault.Some? {
        return Some(RepoError(fault.value, TransactionsModel));
      }
      transactions := transactions[t.id := UpsertTx(transactions, t.Rec())];
      return None;
    }

    /** `transactionsRepo.Delete`: deleting an absent id is not an error. */
    method DeleteTransaction(id: Uuid, fault: Option<Error>) returns (err: Option<Error>)
      modifies this
      ensures fault.Some? ==> err == Some(RepoError(fault.value, TransactionsModel)) && State() == old(State())
      ensures fault.None? ==> err.None? && State() == old(State()).(transactions := old(transactions) - {id})
      ensures scope == old(scope)
    {
      if fault.Some? {
        return Some(RepoError(fault.value, TransactionsModel));
      }
      transactions := transactions - {id};
      return None;
    }

    /** `usersRepo.FindByID`: the stored row as a new object. */
    method FindUser(id: Uuid, fault: Option<Error>) returns (r: Result<User>)
      ensures fault.Some? ==> r == Err(RepoError(fault.value, UsersModel))
      ensures fault.None? && id !in users ==> r == Err(NotFound(UsersModel))
      ensures fault.None? && id in users ==> r.Ok? && fresh(r.value) && r.value.Rec() == users[id]
    {
      if fault.Some? {
        return Err(RepoError(fault.value, UsersModel));
      }
      if id !in users {
        return Err(NotFound(UsersModel));
      }
      var u := new User.FromRec(users[id]);
      return Ok(u);
    }

    /** `usersRepo.FindByTGUserID`: some stored user with that Telegram id, as a new object. */
    method FindUserByTg(tgUserId: int, fault: Option<Error>) returns (r: Result<User>)
      ensures fault.Some? ==> r == Err(RepoError(fault.value, UsersModel))
      ensures fault.None? ==> (r.Ok? <==> exists id :: id in users && users[id].tgUserId == tgUserId)
      ensures fault.None? && r.Err? ==> r.error == NotFound(UsersModel)
      ensures r.Ok? ==> fresh(r.value) && r.value.Rec() in users.Values && r.value.tgUserId == tgUserId
    {
      if fault.Some? {
        return Err(RepoError(fault.value, UsersModel));
      }
      if !exists id :: id in users && users[id].tgUserId == tgUserId {
        return Err(NotFound(UsersModel));
      }
      var id :| id in users && users[id].tgUserId == tgUserId;
      var u := new User.FromRec(users[id]);
      return Ok(u);
    }

    /** `usersRepo.Save`: an upsert keyed by id. */
    method SaveUser(u: User, fault: Option<Error>) returns (err: Option<Error>)
      modifies this
      ensures fault.Some? ==> err == Some(RepoError(fault.value, UsersModel)) && State() == old(State())
      ensures fault.None? ==> err.None?
      ensures fault.None? ==> State() == old(State()).(users := old(users)[u.id := UpsertUser(old(users), u.Rec())])
      ensures scope == old(scope)
    {
      if fault.Some? {
        return Some(RepoError(fault.value, UsersModel));
      }
      users := users[u.id := UpsertUser(users, u.Rec())];
      return None;
    }
  }
}
