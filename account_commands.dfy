/**
 * The account commands of internal/usecase/accounts/command: create an
 * account with its opening deposit, patch its name and default flag, and
 * delete it.
 *
 * `accountId` and `txId` are the ids `uuid.New` draws and `now` the clock;
 * `other` is what the category repository returns for the Other category.
 */
module AccountCommands {
  import opened Wrappers
  import opened Uuids
  import opened Times
  import opened Money
  import opened Errors
  import opened Categories
  import opened Transactions
  import opened Accounts
  import opened Users
  import opened PgErrors
  import opened Store
  import Ledger

  datatype CreateAccountCommand = CreateAccountCommand(userId: UuidText, name: string, balance: real, isDefault: bool)

  datatype UpdateAccountCommand = UpdateAccountCommand(
    userId: UuidText, accountId: UuidText, name: Option<string>, isDefault: Option<bool>)

  datatype DeleteAccountCommand = DeleteAccountCommand(userId: UuidText, accountId: UuidText)

  /** The note of the opening deposit ("account balance"). */
  const OpeningNote := "Баланс счета"

  /**
   * The account `CreateAccount` builds: the caller's, named as asked, with
   * the flag as asked, and the balance in the caller's currency, or 0 when
   * the setter refused a negative one.
   */
  function Opened(user: UserRec, cmd: CreateAccountCommand, accountId: Uuid, now: Time): (a: AccountRec)
    ensures a.id == accountId && a.userId == user.id && a.name == cmd.name && a.isDefault == cmd.isDefault
    ensures cmd.balance < 0.0 ==> a.balance == 0
    ensures cmd.balance >= 0.0 ==> a.balance == MinorFromMajor(cmd.balance, Scale(user.currencyCode))
    ensures InInt64(a.balance)
  {
    var a := AccountRec(accountId, user.id, cmd.name, 0, false, now, now);
    var a1 := if cmd.balance < 0.0 then a else a.(balance := MinorFromMajor(cmd.balance, Scale(user.currencyCode)));
    a1.(isDefault := cmd.isDefault, updatedAt := now)
  }

  /** The opening deposit: in the Other category, for the requested balance, never marked performed. */
  function OpeningDeposit(user: UserRec, other: Category, accountId: Uuid, txId: Uuid, balance: real, now: Time): Step {
    AmountMajorSet(Categorised(Created(txId, user.id, accountId, Deposit, OpeningNote, now), Some(other), None),
                   balance, user.currencyCode)
  }

  /**
   * The opening deposit matches the balance: its amount is the balance set
   * directly on the account, so the account holds exactly its effect; it is
   * refused only when the caller has no currency.
   */
  lemma OpeningDepositMatchesBalance(user: UserRec, cmd: CreateAccountCommand, other: Category,
                                     accountId: Uuid, txId: Uuid, now: Time)
    requires Opened(user, cmd, accountId, now).balance > 0
    ensures var d := OpeningDeposit(user, other, accountId, txId, cmd.balance, now);
            var a := Opened(user, cmd, accountId, now);
            && (d.err.None? <==> user.currencyCode != NULL)
            && (d.err.None? ==>
                  d.rec.id == txId && d.rec.accountId == accountId && d.rec.userId == user.id
                  && d.rec.trnType == Deposit && d.rec.status == New && d.rec.category == Some(other)
                  && d.rec.amount == a.balance && d.rec.currencyCode == user.currencyCode
                  && a.balance == Wrap64(TxEffect(d.rec)))
  {
  }

  /** The tables once `a` is saved. */
  function WithAccount(t: Tables, a: AccountRec): Tables {
    t.(accounts := t.accounts[a.id := UpsertAccount(t.accounts, a)])
  }

  /** The tables once `a` and then `d` are saved. */
  function WithOpening(t: Tables, a: AccountRec, d: TxRec): Tables {
    var t1 := WithAccount(t, a);
    t1.(transactions := t1.transactions[d.id := UpsertTx(t1.transactions, d)])
  }

  /** No stored transaction is posted against `id`. */
  ghost predicate Unreferenced(t: Tables, id: Uuid) {
    forall k :: k in t.transactions ==> t.transactions[k].accountId != id
  }

  /**
   * Opening a new account with its deposit, or with a zero balance and no
   * deposit, keeps every balance equal to the sum of its postings.
   */
  lemma OpeningKeepsConsistent(before: Tables, user: UserRec, cmd: CreateAccountCommand, other: Result<Category>,
                               accountId: Uuid, txId: Uuid, now: Time)
    requires Ledger.Consistent(before.accounts, before.transactions)
    requires accountId !in before.accounts && Unreferenced(before, accountId) && txId !in before.transactions
    requires Opened(user, cmd, accountId, now).balance >= 0
    requires Opened(user, cmd, accountId, now).balance > 0 ==>
               other.Ok? && OpeningDeposit(user, other.value, accountId, txId, cmd.balance, now).err.None?
    ensures var a := Opened(user, cmd, accountId, now);
            var after := if a.balance > 0
                         then WithOpening(before, a, OpeningDeposit(user, other.value, accountId, txId, cmd.balance, now).rec)
                         else WithAccount(before, a);
            Ledger.Consistent(after.accounts, after.transactions)
  {
    var a := Opened(user, cmd, accountId, now);
    if a.balance > 0 {
      OpeningDepositMatchesBalance(user, cmd, other.value, accountId, txId, now);
      Ledger.OpenKeepsConsistent(before.accounts, before.transactions, a,
                                 OpeningDeposit(user, other.value, accountId, txId, cmd.balance, now).rec);
    } else {
      Ledger.OpenEmptyKeepsConsistent(before.accounts, before.transactions, a);
    }
  }

  /**
   * What `CreateAccount` as written leaves behind when a step after the
   * account save fails: an account whose balance no posting explains.
   */
  lemma {:induction false} UnexplainedBalance(before: Tables, a: AccountRec)
    requires a.id !in before.accounts && Unreferenced(before, a.id) && a.balance != 0
    ensures var after := WithAccount(before, a);
            !Ledger.Consistent(after.accounts, after.transactions)
  {
    var after := WithAccount(before, a);
    Ledger.SumOfUnposted(before.transactions, a.id);
    assert after.accounts[a.id].balance == a.balance;
    assert Wrap64(0) == 0;
  }

  /**
   * An input on which `CreateAccount` as written stops half way: a caller
   * who never chose a currency (a new user's currency is NULL) opening an
   * account with 10.00. The account is stored with 1000 minor units, and
   * the deposit is then refused.
   */
  lemma NoCurrencyStopsHalfWay(user: UserRec, cmd: CreateAccountCommand, other: Category,
                               accountId: Uuid, txId: Uuid, now: Time)
    requires user.currencyCode == NULL && cmd.balance == 10.0
    ensures Opened(user, cmd, accountId, now).balance == 1000
    ensures OpeningDeposit(user, other, accountId, txId, cmd.balance, now).err == Some(Plain("currency code must not be empty"))
  {
    assert Scaled(10.0, 2) == 1000.0 by {
      assert Scaled(10.0, 1) == 100.0 by { assert Scaled(10.0, 0) == 10.0; }
    }
    assert Round(1000.0) == 1000;
  }

  /** The caller exists and the account row is saved. */
  ghost predicate AccountSaved(before: Tables, cmd: CreateAccountCommand, f: Faults) {
    cmd.userId.Canonical? && f.findUser.None? && cmd.userId.id in before.users && cmd.userId.id != Nil
    && f.saveAccount.None?
  }

  /**
   * `CreateAccount` as written. The account is saved on its own before the
   * category lookup and the deposit, so a failure there returns an error
   * and leaves the account in place.
   */
  method CreateAccount(s: Store, cmd: CreateAccountCommand, other: Result<Category>, accountId: Uuid, txId: Uuid,
                       now: Time, f: Faults) returns (r: Result<Account>)
    requires s.scope.None? && Keyed(s.State())
    modifies s
    ensures s.scope.None? && Keyed(s.State())
    ensures !cmd.userId.Canonical? ==> r == Err(Validation("user_id", "invalud uuid type"))
    ensures !AccountSaved(old(s.State()), cmd, f) ==> r.Err? && s.State() == old(s.State())
    ensures AccountSaved(old(s.State()), cmd, f) ==>
              var user := old(s.users)[cmd.userId.id];
              var a := Opened(user, cmd, accountId, now);
              && (a.balance <= 0 ==> r.Ok? && s.State() == WithAccount(old(s.State()), a))
              && (a.balance > 0 ==>
                    (r.Ok? <==> other.Ok? && accountId != Nil
                                && OpeningDeposit(user, other.value, accountId, txId, cmd.balance, now).err.None?
                                && f.saveTx.None?)
                    && (r.Ok? ==> other.Ok? && s.State() == WithOpening(old(s.State()), a,
                                    OpeningDeposit(user, other.value, accountId, txId, cmd.balance, now).rec))
                    && (r.Err? ==> s.State() == WithAccount(old(s.State()), a))
                    && (other.Err? ==> r == Err(other.error)))
    ensures r.Ok? ==> fresh(r.value) && r.value.Rec() == Opened(old(s.users)[cmd.userId.id], cmd, accountId, now)
  {
    if !cmd.userId.Canonical? {
      return Err(Validation("user_id", "invalud uuid type"));
    }
    var user := s.FindUser(cmd.userId.id, f.findUser);
    if user.Err? {
      return Err(user.error);
    }
    var account, err := Open(s, user.value, cmd, other, accountId, txId, now, f);
    if err.Some? {
      return Err(err.value);
    }
    return Ok(account);
  }

    /**
   * The account `a` and the tables `after` are what creating the account
   * commanded yields: the opened account, stored with its opening deposit
   * when its balance is positive.
   */
  ghost predicate OpenedAsCommanded(before: Tables, cmd: CreateAccountCommand, other: Result<Category>, accountId: Uuid,
                                    txId: Uuid, now: Time, a: AccountRec, after: Tables)
  {
    cmd.userId.Canonical? && cmd.userId.id in before.users
    && OpenedFor(before, before.users[cmd.userId.id], cmd, other, accountId, txId, now, a, after)
  }

  /** `OpenedAsCommanded` for the already loaded `user`. */
  ghost predicate OpenedFor(before: Tables, user: UserRec, cmd: CreateAccountCommand, other: Result<Category>,
                            accountId: Uuid, txId: Uuid, now: Time, a: AccountRec, after: Tables)
  {
    a == Opened(user, cmd, accountId, now)
    && (a.balance <= 0 ==> after == WithAccount(before, a))
    && (a.balance > 0 ==>
          other.Ok?
          && var d := OpeningDeposit(user, other.value, accountId, txId, cmd.balance, now);
          && d.err.None? && after == WithOpening(before, a, d.rec))
  }

/**
   * `CreateAccount` as its siblings run: the same steps inside one `WithTx`
   * scope, so a failure anywhere stores nothing, and success keeps the
   * ledger consistent.
   */
  method CreateAccountAtomic(s: Store, cmd: CreateAccountCommand, other: Result<Category>, accountId: Uuid,
                             txId: Uuid, now: Time, f: Faults) returns (r: Result<Account>)
    requires s.scope.None? && Keyed(s.State())
    modifies s
    ensures s.scope.None? && Keyed(s.State())
    ensures !cmd.userId.Canonical? ==> r == Err(Validation("user_id", "invalud uuid type"))
    ensures r.Err? ==> s.State() == old(s.State())
    ensures r.Ok? ==>
              AccountSaved(old(s.State()), cmd, f) && f.begin.None? && f.commit.None?
              && OpenedAsCommanded(old(s.State()), cmd, other, accountId, txId, now, r.value.Rec(), s.State())
    ensures (r.Ok? && r.value.balance >= 0 && old(s.Consistent()) && accountId !in old(s.accounts)
             && Unreferenced(old(s.State()), accountId) && txId !in old(s.transactions)) ==> s.Consistent()
  {
    if !cmd.userId.Canonical? {
      return Err(Validation("user_id", "invalud uuid type"));
    }
    var user := s.FindUser(cmd.userId.id, f.findUser);
    if user.Err? {
      return Err(user.error);
    }
    var err := s.Begin(f.begin);
    if err.Some? {
      return Err(err.value);
    }
    ghost var before := s.State();
    var account, fnErr := Open(s, user.value, cmd, other, accountId, txId, now, f);
    err := s.Finish(fnErr, f.rollback, f.commit);
    if err.Some? {
      return Err(err.value);
    }
    assert before == old(s.State());
    if account.balance >= 0 && old(s.Consistent()) && accountId !in old(s.accounts)
       && Unreferenced(old(s.State()), accountId) && txId !in old(s.transactions) {
      OpeningKeepsConsistent(before, user.value.Rec(), cmd, other, accountId, txId, now);
    }
    return Ok(account);
  }

  /** The steps of `CreateAccount` from building the account to saving its opening deposit. */
  method Open(s: Store, user: User, cmd: CreateAccountCommand, other: Result<Category>, accountId: Uuid, txId: Uuid,
              now: Time, f: Faults) returns (account: Account?, err: Option<Error>)
    requires Keyed(s.State())
    modifies s
    ensures s.scope == old(s.scope) && Keyed(s.State())
    ensures user.id == Nil ==> err == Some(Plain("invalid user id")) && s.State() == old(s.State())
    ensures user.id != Nil && f.saveAccount.Some? ==>
              err == Some(RepoError(f.saveAccount.value, AccountsModel)) && s.State() == old(s.State())
    ensures user.id != Nil && f.saveAccount.None? ==>
              var a := Opened(user.Rec(), cmd, accountId, now);
              && (a.balance <= 0 ==> err.None? && s.State() == WithAccount(old(s.State()), a))
              && (a.balance > 0 ==>
                    (err.None? <==> other.Ok? && accountId != Nil
                                    && OpeningDeposit(user.Rec(), other.value, accountId, txId, cmd.balance, now).err.None?
                                    && f.saveTx.None?)
                    && (err.None? ==> other.Ok? && s.State() == WithOpening(old(s.State()), a,
                                        OpeningDeposit(user.Rec(), other.value, accountId, txId, cmd.balance, now).rec))
                    && (err.Some? ==> s.State() == WithAccount(old(s.State()), a))
                    && (other.Err? ==> err == Some(other.error)))
    ensures err.None? ==> account != null && fresh(account) && account.Rec() == Opened(user.Rec(), cmd, accountId, now)
    ensures err.None? ==> OpenedFor(old(s.State()), user.Rec(), cmd, other, accountId, txId, now, account.Rec(), s.State())
  {
    account, err := Drafted(user, cmd, accountId, now);
    if err.Some? {
      return;
    }
    err := s.SaveAccount(account, f.saveAccount);
    if err.Some? || account.balance <= 0 {
      return;
    }
    err := SaveOpening(s, user, account, other, txId, cmd.balance, now, f.saveTx);
  }

  /** The new account `CreateAccount` builds: created, given its opening balance, flagged. */
  method Drafted(user: User, cmd: CreateAccountCommand, accountId: Uuid, now: Time) returns (account: Account?, err: Option<Error>)
    ensures user.id == Nil ==> err == Some(Plain("invalid user id"))
    ensures user.id != Nil ==> err.None? && account != null && fresh(account)
                               && account.Rec() == Opened(user.Rec(), cmd, accountId, now)
  {
    var created := Account.NewAccount(user.id, cmd.name, accountId, now);
    if created.Err? {
      return null, Some(created.error);
    }
    account := created.value;
    var _ := account.SetAmountMajor(cmd.balance, user.currencyCode);
    account.UpdateDefault(cmd.isDefault, now);
    err := None;
  }

  /** The opening deposit of `CreateAccount`: look up Other, build the deposit, save it. */
  method SaveOpening(s: Store, user: User, account: Account, other: Result<Category>, txId: Uuid, balance: real,
                     now: Time, fault: Option<Error>) returns (err: Option<Error>)
    requires Keyed(s.State()) && account.userId == user.id && user.id != Nil
    modifies s
    ensures s.scope == old(s.scope) && Keyed(s.State())
    ensures other.Err? ==> err == Some(other.error)
    ensures err.Some? ==> s.State() == old(s.State())
    ensures other.Ok? ==>
              var d := OpeningDeposit(user.Rec(), other.value, account.id, txId, balance, now);
              && (err.None? <==> account.id != Nil && d.err.None? && fault.None?)
              && (err.None? ==>
                    s.State() == old(s.State()).(transactions := old(s.transactions)[txId := UpsertTx(old(s.transactions), d.rec)]))
  {
    if other.Err? {
      return Some(other.error);
    }
    var created := Transaction.NewTransaction(account.userId, account.id, Deposit, OpeningNote, txId, now);
    if created.Err? {
      return Some(created.error);
    }
    var t := created.value;
    var _ := t.Categorise(Some(other.value), None);
    err := t.SetAmountMajor(balance, user.currencyCode);
    if err.Some? {
      return;
    }
    err := s.SaveTransaction(t, fault);
  }

  /** `UpdateAccount`'s patch: only the given fields change, and the time only when one is given. */
  function Patched(a: AccountRec, name: Option<string>, isDefault: Option<bool>, now: Time): (r: AccountRec)
    ensures r.id == a.id && r.userId == a.userId && r.balance == a.balance && r.createdAt == a.createdAt
    ensures r.name == (if name.Some? then name.value else a.name)
    ensures r.isDefault == (if isDefault.Some? then isDefault.value else a.isDefault)
    ensures r.updatedAt == (if name.Some? || isDefault.Some? then now else a.updatedAt)
  {
    var a1 := if name.Some? then a.(name := name.value, updatedAt := now) else a;
    if isDefault.Some? then a1.(isDefault := isDefault.value, updatedAt := now) else a1
  }

  /** Apply `UpdateAccount`'s patch to the loaded account in place. */
  method Patch(account: Account, name: Option<string>, isDefault: Option<bool>, now: Time)
    modifies account
    ensures account.Rec() == Patched(old(account.Rec()), name, isDefault, now)
  {
    if name.Some? {
      account.UpdateName(name.value, now);
    }
    if isDefault.Some? {
      account.UpdateDefault(isDefault.value, now);
    }
  }

  /**
   * `UpdateAccount`: any caller may patch any account (the owner is not
   * compared); the balance is never touched.
   */
  method UpdateAccount(s: Store, cmd: UpdateAccountCommand, now: Time, f: Faults) returns (r: Result<Account>)
    requires Keyed(s.State())
    modifies s
    ensures s.scope == old(s.scope) && Keyed(s.State())
    ensures !cmd.userId.Canonical? ==> r == Err(Validation("user_id", "invalud uuid type"))
    ensures cmd.userId.Canonical? && !cmd.accountId.Canonical? ==> r == Err(Validation("account_id", "invalud uuid type"))
    ensures r.Ok? <==> cmd.userId.Canonical? && cmd.accountId.Canonical?
                       && f.findUser.None? && cmd.userId.id in old(s.users)
                       && f.getAccount.None? && cmd.accountId.id in old(s.accounts)
                       && f.saveAccount.None?
    ensures r.Err? ==> s.State() == old(s.State())
    ensures r.Ok? ==>
              var a := Patched(old(s.accounts)[cmd.accountId.id], cmd.name, cmd.isDefault, now);
              && r.value.Rec() == a
              && s.State() == old(s.State()).(accounts := old(s.accounts)[cmd.accountId.id := a])
    ensures old(s.Consistent()) ==> s.Consistent()
  {
    if !cmd.userId.Canonical? {
      return Err(Validation("user_id", "invalud uuid type"));
    }
    if !cmd.accountId.Canonical? {
      return Err(Validation("account_id", "invalud uuid type"));
    }
    var user := s.FindUser(cmd.userId.id, f.findUser);
    if user.Err? {
      return Err(user.error);
    }
    var got := s.GetAccount(cmd.accountId.id, f.getAccount);
    if got.Err? {
      return Err(got.error);
    }
    var account := got.value;
    Patch(account, cmd.name, cmd.isDefault, now);
    var err := s.SaveAccount(account, f.saveAccount);
    if err.Some? {
      return Err(err.value);
    }
    if old(s.Consistent()) {
      Ledger.RestoreKeepsConsistent(old(s.accounts), old(s.transactions), account.Rec());
    }
    return Ok(account);
  }

  /**
   * `DeleteAccount`: any caller may delete any account (the owner is not
   * compared); the account's transactions stay as they are.
   */
  method DeleteAccount(s: Store, cmd: DeleteAccountCommand, f: Faults) returns (err: Option<Error>)
    requires Keyed(s.State())
    modifies s
    ensures s.scope == old(s.scope) && Keyed(s.State())
    ensures !cmd.userId.Canonical? ==> err == Some(Validation("user_id", "invalud uuid type"))
    ensures cmd.userId.Canonical? && !cmd.accountId.Canonical? ==>
              err == Some(Validation("account_id", "invalud uuid type"))
    ensures err.None? <==> cmd.userId.Canonical? && cmd.accountId.Canonical?
                           && f.findUser.None? && cmd.userId.id in old(s.users)
                           && f.getAccount.None? && cmd.accountId.id in old(s.accounts)
                           && f.deleteAccount.None?
    ensures err.Some? ==> s.State() == old(s.State())
    ensures err.None? ==> s.State() == old(s.State()).(accounts := old(s.accounts) - {cmd.accountId.id})
    ensures old(s.Consistent()) ==> s.Consistent()
  {
    if !cmd.userId.Canonical? {
      return Some(Validation("user_id", "invalud uuid type"));
    }
    if !cmd.accountId.Canonical? {
      return Some(Validation("account_id", "invalud uuid type"));
    }
    var user := s.FindUser(cmd.userId.id, f.findUser);
    if user.Err? {
      return Some(user.error);
    }
    var got := s.GetAccount(cmd.accountId.id, f.getAccount);
    if got.Err? {
      return Some(got.error);
    }
    err := s.DeleteAccount(got.value.id, f.deleteAccount);
    if err.None? && old(s.Consistent()) {
      Ledger.RemoveAccountKeepsConsistent(old(s.accounts), old(s.transactions), cmd.accountId.id);
    }
  }
}
