/**
 * The three commands that post, re-post and un-post a transaction,
 * internal/usecase/transactions/command: each checks its input, reads the
 * caller, and then, inside one `WithTx` scope, locks the account, moves its
 * balance and saves the account before the transaction row.
 *
 * The category and subcategory caches are given as their entities by id;
 * `txId` is the id `uuid.New` draws and `now` the clock.
 */
module TransactionCommands {
  import opened Wrappers
  import opened Uuids
  import opened Times
  import opened Money
  import opened Errors
  import opened Categories
  import opened Transactions
  import opened Accounts
  import opened Users
  import opened Store
  import opened Dictionary
  import opened CategoryDicts

  datatype CreateCommand = CreateCommand(
    userId: UuidText, accountId: UuidText, categoryId: Option<int>,
    trnType: string, amount: real, note: string, performedAt: Option<Time>)

  datatype UpdateCommand = UpdateCommand(
    userId: UuidText, transactionId: UuidText, categoryId: Option<int>, subcategoryId: Option<int>,
    trnType: string, amount: real, originalAmount: Option<real>, originalCurrency: Option<string>,
    fxRate: Option<real>, note: string, performedAt: Option<Time>)

  datatype DeleteCommand = DeleteCommand(userId: UuidText, transactionId: UuidText)

  /** The item `NotFound` names for a missing or foreign transaction. */
  const TransactionItem := "transaction"

  /** Create's type rule: "income" is a deposit, anything else a withdrawal. */
  function CreateType(t: string): (r: TrnType)
    ensures r == Deposit <==> t == "income"
    ensures r == Withdrawal <==> t != "income"
  {
    if t == "income" then Deposit else Withdrawal
  }

  /** Update's type rule: "deposit" is a deposit, anything else a withdrawal. */
  function UpdateType(t: string): (r: TrnType)
    ensures r == Deposit <==> t == "deposit"
    ensures r == Withdrawal <==> t != "deposit"
  {
    if t == "deposit" then Deposit else Withdrawal
  }

  /** The two rules disagree: the word each one takes for a deposit is a withdrawal to the other. */
  lemma TypeRulesDisagree()
    ensures CreateType("deposit") == Withdrawal && UpdateType("income") == Withdrawal
    ensures CreateType("income") == Deposit && UpdateType("deposit") == Deposit
  {
  }

  /** The category a command names: none, or the cached one (NotFound otherwise). */
  function PickCategory(categories: map<int, Category>, id: Option<int>): (r: Result<Option<Category>>)
    ensures r.Err? <==> id.Some? && id.value !in categories
    ensures r.Err? ==> r.error == NotFound(CategoriesModel)
    ensures r.Ok? ==> r.value == (if id.Some? then Some(categories[id.value]) else None)
  {
    if id.None? then Ok(None)
    else
      var c := Lookup(categories, id.value, CategoriesModel);
      if c.Err? then Err(c.error) else Ok(Some(c.value))
  }

  function PickSubcategory(subcategories: map<int, Subcategory>, id: Option<int>): (r: Result<Option<Subcategory>>)
    ensures r.Err? <==> id.Some? && id.value !in subcategories
    ensures r.Err? ==> r.error == NotFound(SubcategoriesModel)
    ensures r.Ok? ==> r.value == (if id.Some? then Some(subcategories[id.value]) else None)
  {
    if id.None? then Ok(None)
    else
      var c := Lookup(subcategories, id.value, SubcategoriesModel);
      if c.Err? then Err(c.error) else Ok(Some(c.value))
  }

  /**
   * What a created transaction holds: the fresh id, the caller, the locked
   * account, the mapped type, the note and the category; completed at the
   * given time or `now`; the amount in the caller's currency if the setter
   * accepted it, else still 0.
   */
  ghost predicate CreatedAsCommanded(before: Tables, cmd: CreateCommand, categories: map<int, Category>,
                                     txId: Uuid, now: Time, t: TxRec)
  {
    cmd.userId.Canonical? && cmd.accountId.Canonical? && cmd.userId.id in before.users
    && (cmd.categoryId.Some? ==> cmd.categoryId.value in categories)
    && var currency := before.users[cmd.userId.id].currencyCode;
    t.id == txId && t.userId == cmd.userId.id && t.accountId == cmd.accountId.id
    && t.trnType == CreateType(cmd.trnType) && t.rowText == cmd.note
    && t.category == (if cmd.categoryId.Some? then Some(categories[cmd.categoryId.value]) else None)
    && t.subcategory == None
    && t.status == Completed && t.performedAt == cmd.performedAt.GetOr(now)
    && t.amount == (if AmountAccepted(cmd.amount, currency) then MinorFromMajor(cmd.amount, Scale(currency)) else 0)
    && t.createdAt == now
  }

  /** Every input and every database call of `CreateTransaction` goes through. */
  ghost predicate CreateGoesThrough(before: Tables, cmd: CreateCommand, categories: map<int, Category>, f: Faults) {
    cmd.userId.Canonical? && cmd.accountId.Canonical?
    && (cmd.categoryId.Some? ==> cmd.categoryId.value in categories)
    && f.findUser.None? && cmd.userId.id in before.users && f.begin.None?
    && f.getAccount.None? && cmd.accountId.id in before.accounts
    && cmd.userId.id != Nil && cmd.accountId.id != Nil
    && f.saveAccount.None? && f.saveTx.None? && f.commit.None?
  }

  /**
   * `CreateTransaction`: on success the new transaction is posted against
   * the locked account; on any failure nothing is stored.
   */
  method CreateTransaction(s: Store, cmd: CreateCommand, categories: map<int, Category>,
                           txId: Uuid, now: Time, f: Faults) returns (r: Result<Transaction>)
    requires s.scope.None? && Keyed(s.State())
    modifies s
    ensures s.scope.None? && Keyed(s.State())
    ensures !cmd.userId.Canonical? ==> r == Err(Validation("user_id", "invalud uuid type"))
    ensures cmd.userId.Canonical? && !cmd.accountId.Canonical? ==> r == Err(Validation("account_id", "invalud uuid type"))
    ensures (cmd.userId.Canonical? && cmd.accountId.Canonical? && cmd.categoryId.Some?
             && cmd.categoryId.value !in categories) ==> r == Err(NotFound(CategoriesModel))
    ensures r.Ok? <==> CreateGoesThrough(old(s.State()), cmd, categories, f)
    ensures r.Err? ==> s.State() == old(s.State())
    ensures r.Ok? ==> fresh(r.value)
                      && CreatedAsCommanded(old(s.State()), cmd, categories, txId, now, r.value.Rec())
                      && s.State() == Posted(old(s.State()), r.value.Rec(), now)
    ensures old(s.Consistent()) && txId !in old(s.transactions) ==> s.Consistent()
  {
    if !cmd.userId.Canonical? {
      return Err(Validation("user_id", "invalud uuid type"));
    }
    if !cmd.accountId.Canonical? {
      return Err(Validation("account_id", "invalud uuid type"));
    }
    var userId, accountId := cmd.userId.id, cmd.accountId.id;
    var category := PickCategory(categories, cmd.categoryId);
    if category.Err? {
      return Err(category.error);
    }
    var user := s.FindUser(userId, f.findUser);
    if user.Err? {
      return Err(user.error);
    }
    assert user.value.id == userId;
    ghost var before := s.State();
    r := PostInScope(s, user.value, accountId, category.value, CreateType(cmd.trnType), cmd, txId, now, f);
    if r.Ok? {
      NewPostingFields(before, cmd, categories, txId, now, r.value.Rec());
      if old(s.Consistent()) && txId !in old(s.transactions) {
        PostedConsistent(before, r.value.Rec(), now);
      }
    }
  }

  /** The transaction `CreateTransaction` builds holds what the command asked for. */
  lemma NewPostingFields(before: Tables, cmd: CreateCommand, categories: map<int, Category>,
                         txId: Uuid, now: Time, t: TxRec)
    requires cmd.userId.Canonical? && cmd.accountId.Canonical? && cmd.userId.id in before.users
    requires PickCategory(categories, cmd.categoryId).Ok?
    requires t == PerformedAt(AmountMajorSet(Categorised(Created(txId, cmd.userId.id, cmd.accountId.id,
                                                                  CreateType(cmd.trnType), cmd.note, now),
                                                          PickCategory(categories, cmd.categoryId).value, None),
                                             cmd.amount, before.users[cmd.userId.id].currencyCode).rec,
                              cmd.performedAt.GetOr(now))
    ensures CreatedAsCommanded(before, cmd, categories, txId, now, t)
  {
  }

  /** The `WithTx` scope of `CreateTransaction`: begin, post, then commit or roll back. */
  method PostInScope(s: Store, user: User, accountId: Uuid, category: Option<Category>, trnType: TrnType,
                     cmd: CreateCommand, txId: Uuid, now: Time, f: Faults) returns (r: Result<Transaction>)
    requires s.scope.None? && Keyed(s.State())
    modifies s
    ensures s.scope.None? && Keyed(s.State())
    ensures r.Ok? <==> f.begin.None? && f.getAccount.None? && accountId in old(s.accounts)
                       && user.id != Nil && accountId != Nil
                       && f.saveAccount.None? && f.saveTx.None? && f.commit.None?
    ensures r.Err? ==> s.State() == old(s.State())
    ensures r.Ok? ==> fresh(r.value) && accountId in old(s.accounts)
                      && r.value.Rec() == PerformedAt(AmountMajorSet(Categorised(Created(txId, user.id, accountId, trnType, cmd.note, now),
                                                                      category, None), cmd.amount, user.currencyCode).rec,
                                                     cmd.performedAt.GetOr(now))
                      && s.State() == Posted(old(s.State()), r.value.Rec(), now)
  {
    var err := s.Begin(f.begin);
    if err.Some? {
      return Err(err.value);
    }
    var t, fnErr := PostNew(s, user, accountId, category, trnType, cmd, txId, now, f);
    err := s.Finish(fnErr, f.rollback, f.commit);
    if err.Some? {
      return Err(err.value);
    }
    return Ok(t);
  }

  /** The body `CreateTransaction` runs inside its scope. */
  method PostNew(s: Store, user: User, accountId: Uuid, category: Option<Category>, trnType: TrnType,
                 cmd: CreateCommand, txId: Uuid, now: Time, f: Faults) returns (t: Transaction?, err: Option<Error>)
    requires s.scope.Some? && Keyed(s.State())
    modifies s
    ensures s.scope == old(s.scope) && Keyed(s.State())
    ensures err.None? <==> f.getAccount.None? && accountId in old(s.accounts) && user.id != Nil && accountId != Nil
                           && f.saveAccount.None? && f.saveTx.None?
    ensures f.getAccount.None? && accountId !in old(s.accounts) ==> err == Some(NotFound(AccountsModel))
    ensures err.None? ==>
              t != null && fresh(t) && accountId in old(s.accounts)
              && t.Rec() == PerformedAt(AmountMajorSet(Categorised(Created(txId, user.id, accountId, trnType, cmd.note, now),
                                                                    category, None), cmd.amount, user.currencyCode).rec,
                                        cmd.performedAt.GetOr(now))
              && s.State() == Posted(old(s.State()), t.Rec(), now)
  {
    var locked := s.GetAccount(accountId, f.getAccount);
    if locked.Err? {
      return null, Some(locked.error);
    }
    var account := locked.value;
    t, err := Drafted(user, account.id, category, trnType, cmd, txId, now);
    if err.Some? {
      return;
    }
    err := Post(s, account, t, now, f);
  }

  /** Apply a new transaction to its locked account, then save the account and the transaction. */
  method Post(s: Store, account: Account, t: Transaction, now: Time, f: Faults) returns (err: Option<Error>)
    requires s.scope.Some? && Keyed(s.State())
    requires t.accountId in s.accounts && account.Rec() == s.accounts[t.accountId]
    modifies s, account
    ensures s.scope == old(s.scope) && Keyed(s.State())
    ensures err.None? <==> f.saveAccount.None? && f.saveTx.None?
    ensures err.None? ==> s.State() == Posted(old(s.State()), t.Rec(), now)
  {
    var _ := account.ApplyTransaction(t, now);
    err := s.SaveAccount(account, f.saveAccount);
    if err.Some? {
      return;
    }
    err := s.SaveTransaction(t, f.saveTx);
  }

  /** The new transaction `CreateTransaction` builds: created, categorised, priced and dated. */
  method Drafted(user: User, accountId: Uuid, category: Option<Category>, trnType: TrnType,
                 cmd: CreateCommand, txId: Uuid, now: Time) returns (t: Transaction?, err: Option<Error>)
    ensures err.None? <==> user.id != Nil && accountId != Nil
    ensures err.None? ==>
              t != null && fresh(t)
              && t.Rec() == PerformedAt(AmountMajorSet(Categorised(Created(txId, user.id, accountId, trnType, cmd.note, now),
                                                                    category, None), cmd.amount, user.currencyCode).rec,
                                        cmd.performedAt.GetOr(now))
  {
    var created := Transaction.NewTransaction(user.id, accountId, trnType, cmd.note, txId, now);
    if created.Err? {
      return null, Some(created.error);
    }
    t := created.value;
    var _ := t.Categorise(category, None);
    var _ := t.SetAmountMajor(cmd.amount, user.currencyCode);
    t.Performed(cmd.performedAt.GetOr(now));
    err := None;
  }

  /** Every input and every database call of `UpdateTransaction` goes through, up to `Update` itself. */
  ghost predicate UpdateReachesScope(before: Tables, cmd: UpdateCommand, categories: map<int, Category>,
                                     subcategories: map<int, Subcategory>, f: Faults)
  {
    cmd.userId.Canonical? && cmd.transactionId.Canonical?
    && (cmd.categoryId.Some? ==> cmd.categoryId.value in categories)
    && (cmd.subcategoryId.Some? ==> cmd.subcategoryId.value in subcategories)
    && f.findUser.None? && cmd.userId.id in before.users && f.begin.None? && f.getTx.None?
  }

  /** The stored transaction the command names belongs to the caller. */
  ghost predicate OwnTransaction(before: Tables, cmd: UpdateCommand) {
    cmd.userId.Canonical? && cmd.transactionId.Canonical?
    && cmd.transactionId.id in before.transactions
    && before.transactions[cmd.transactionId.id].userId == cmd.userId.id
  }

  /**
   * What a successful update did: the caller's own transaction is replaced
   * by its updated state `t`, and its account is re-posted.
   */
  ghost predicate UpdateApplied(before: Tables, cmd: UpdateCommand, categories: map<int, Category>,
                                subcategories: map<int, Subcategory>, f: Faults, now: Time, t: TxRec, after: Tables)
  {
    UpdateReachesScope(before, cmd, categories, subcategories, f)
    && OwnTransaction(before, cmd)
    && PickCategory(categories, cmd.categoryId).Ok? && PickSubcategory(subcategories, cmd.subcategoryId).Ok?
    && RepostedFor(before, cmd.userId.id, cmd.transactionId.id,
                   PickCategory(categories, cmd.categoryId).value, PickSubcategory(subcategories, cmd.subcategoryId).value,
                   UpdateType(cmd.trnType), cmd, before.users[cmd.userId.id].currencyCode, now, t, after)
  }

  /**
   * The caller's stored transaction `txId`, turned by `Update` into `t`,
   * replaces the stored one, and its account is re-posted.
   */
  ghost predicate RepostedFor(before: Tables, userId: Uuid, txId: Uuid, category: Option<Category>,
                              subcategory: Option<Subcategory>, trnType: TrnType, cmd: UpdateCommand,
                              currency: Currency, now: Time, t: TxRec, after: Tables)
  {
    txId in before.transactions
    && var u := before.transactions[txId];
    && u.userId == userId && u.accountId in before.accounts
    && t.id == txId && t.accountId == u.accountId
    && Step(t, None) == Updated(u, category, subcategory, trnType, cmd.amount, currency,
                                cmd.originalAmount, cmd.originalCurrency, cmd.fxRate, cmd.note, cmd.performedAt, now)
    && after == Reposted(before, u, t, now)
  }

  /**
   * `UpdateTransaction`: a missing or foreign transaction is NotFound and
   * nothing changes; on success the stored transaction is replaced by its
   * updated state and its own account's balance is moved by the difference
   * of the two effects; on any failure nothing is stored.
   */
  method UpdateTransaction(s: Store, cmd: UpdateCommand, categories: map<int, Category>,
                           subcategories: map<int, Subcategory>, now: Time, f: Faults)
    returns (r: Result<Transaction>)
    requires s.scope.None? && Keyed(s.State())
    modifies s
    ensures s.scope.None? && Keyed(s.State())
    ensures !cmd.userId.Canonical? ==> r == Err(Validation("user_id", "invalid uuid type"))
    ensures cmd.userId.Canonical? && !cmd.transactionId.Canonical? ==>
              r == Err(Validation("transaction_id", "invalid uuid type"))
    ensures r.Err? ==> s.State() == old(s.State())
    ensures (UpdateReachesScope(old(s.State()), cmd, categories, subcategories, f) && f.rollback.None?
             && !OwnTransaction(old(s.State()), cmd)) ==> r.Err? && r.error.NotFound?
    ensures r.Ok? ==> UpdateApplied(old(s.State()), cmd, categories, subcategories, f, now, r.value.Rec(), s.State())
    ensures old(s.Consistent()) ==> s.Consistent()
  {
    if !cmd.userId.Canonical? {
      return Err(Validation("user_id", "invalid uuid type"));
    }
    if !cmd.transactionId.Canonical? {
      return Err(Validation("transaction_id", "invalid uuid type"));
    }
    if PickCategory(categories, cmd.categoryId).Err? {
      return Err(PickCategory(categories, cmd.categoryId).error);
    }
    if PickSubcategory(subcategories, cmd.subcategoryId).Err? {
      return Err(PickSubcategory(subcategories, cmd.subcategoryId).error);
    }
    var userId, txId := cmd.userId.id, cmd.transactionId.id;
    var user := s.FindUser(userId, f.findUser);
    if user.Err? {
      return Err(user.error);
    }
    ghost var before := s.State();
    r := RepostInScope(s, userId, txId, PickCategory(categories, cmd.categoryId).value,
                       PickSubcategory(subcategories, cmd.subcategoryId).value, UpdateType(cmd.trnType), cmd,
                       user.value.currencyCode, now, f);
    if r.Ok? && old(s.Consistent()) {
      RepostedConsistent(before, r.value.Rec(), now);
    }
  }

  /** The `WithTx` scope of `UpdateTransaction`: begin, re-post, then commit or roll back. */
  method RepostInScope(s: Store, userId: Uuid, txId: Uuid, category: Option<Category>,
                       subcategory: Option<Subcategory>, trnType: TrnType, cmd: UpdateCommand, currency: Currency,
                       now: Time, f: Faults) returns (r: Result<Transaction>)
    requires s.scope.None? && Keyed(s.State())
    modifies s
    ensures s.scope.None? && Keyed(s.State())
    ensures r.Err? ==> s.State() == old(s.State())
    ensures (f.begin.None? && f.getTx.None? && f.rollback.None?
             && !(txId in old(s.transactions) && old(s.transactions)[txId].userId == userId)) ==>
              r.Err? && r.error.NotFound?
    ensures r.Ok? ==> f.begin.None? && f.getTx.None?
                      && RepostedFor(old(s.State()), userId, txId, category, subcategory, trnType, cmd, currency, now,
                                     r.value.Rec(), s.State())
  {
    var err := s.Begin(f.begin);
    if err.Some? {
      return Err(err.value);
    }
    ghost var before := s.State();
    var t, fnErr := Repost(s, userId, txId, category, subcategory, trnType, cmd, currency, now, f);
    err := s.Finish(fnErr, f.rollback, f.commit);
    if err.Some? {
      return Err(err.value);
    }
    assert before == old(s.State());
    return Ok(t);
  }

  /** The body `UpdateTransaction` runs inside its scope. */
  method Repost(s: Store, userId: Uuid, txId: Uuid, category: Option<Category>, subcategory: Option<Subcategory>,
                trnType: TrnType, cmd: UpdateCommand, currency: Currency, now: Time, f: Faults)
    returns (t: Transaction?, err: Option<Error>)
    requires s.scope.Some? && Keyed(s.State())
    modifies s
    ensures s.scope == old(s.scope) && Keyed(s.State())
    ensures f.getTx.None? && !(txId in old(s.transactions) && old(s.transactions)[txId].userId == userId) ==>
              err.Some? && err.value.NotFound? && s.State() == old(s.State())
    ensures err.None? ==>
              t != null && fresh(t) && f.getTx.None?
              && RepostedFor(old(s.State()), userId, txId, category, subcategory, trnType, cmd, currency, now,
                             t.Rec(), s.State())
  {
    var got := s.GetTransaction(txId, f.getTx);
    if got.Err? {
      return null, Some(got.error);
    }
    t := got.value;
    if t.userId != userId {
      return t, Some(NotFound(TransactionItem));
    }
    var locked := s.GetAccount(t.accountId, f.getAccount);
    if locked.Err? {
      return t, Some(locked.error);
    }
    err := Rewrite(s, locked.value, t, category, subcategory, trnType, cmd, currency, now, f);
  }

  /**
   * Move the loaded transaction `t` to its updated state on its locked
   * account: revert, update, apply, then save the account and the transaction.
   */
  method Rewrite(s: Store, account: Account, t: Transaction, category: Option<Category>,
                 subcategory: Option<Subcategory>, trnType: TrnType, cmd: UpdateCommand, currency: Currency,
                 now: Time, f: Faults) returns (err: Option<Error>)
    requires s.scope.Some? && Keyed(s.State())
    requires t.id in s.transactions && t.Rec() == s.transactions[t.id]
    requires t.accountId in s.accounts && account.Rec() == s.accounts[t.accountId]
    modifies s, account, t
    ensures s.scope == old(s.scope) && Keyed(s.State())
    ensures err.None? ==>
              t.id == old(t.id) && t.accountId == old(t.accountId)
              && Step(t.Rec(), None) == Updated(old(t.Rec()), category, subcategory, trnType, cmd.amount, currency,
                                                cmd.originalAmount, cmd.originalCurrency, cmd.fxRate, cmd.note,
                                                cmd.performedAt, now)
              && s.State() == Reposted(old(s.State()), old(t.Rec()), t.Rec(), now)
  {
    ghost var u := t.Rec();
    var _ := account.RevertTransaction(t, now);
    err := t.Update(category, subcategory, trnType, cmd.amount, currency,
                    cmd.originalAmount, cmd.originalCurrency, cmd.fxRate, cmd.note, cmd.performedAt, now);
    if err.Some? {
      return;
    }
    UpdateOutcome(u, category, subcategory, trnType, cmd.amount, currency,
                  cmd.originalAmount, cmd.originalCurrency, cmd.fxRate, cmd.note, cmd.performedAt, now);
    var _ := account.ApplyTransaction(t, now);
    err := s.SaveAccount(account, f.saveAccount);
    if err.Some? {
      return;
    }
    err := s.SaveTransaction(t, f.saveTx);
  }

  /**
   * `DeleteTransaction`: a missing or foreign transaction is NotFound and
   * nothing changes; on success the transaction's effect is taken off its
   * account and its row is deleted; on any failure nothing is stored.
   */
  method DeleteTransaction(s: Store, cmd: DeleteCommand, now: Time, f: Faults) returns (err: Option<Error>)
    requires s.scope.None? && Keyed(s.State())
    modifies s
    ensures s.scope.None? && Keyed(s.State())
    ensures !cmd.userId.Canonical? ==> err == Some(Validation("user_id", "invalid uuid type"))
    ensures cmd.userId.Canonical? && !cmd.transactionId.Canonical? ==>
              err == Some(Validation("transaction_id", "invalid uuid type"))
    ensures err.Some? ==> s.State() == old(s.State())
    ensures cmd.userId.Canonical? && cmd.transactionId.Canonical? && f.begin.None? && f.getTx.None? && f.rollback.None?
            && !(cmd.transactionId.id in old(s.transactions)
                 && old(s.transactions)[cmd.transactionId.id].userId == cmd.userId.id) ==>
              err.Some? && err.value.NotFound?
    ensures err.None? ==>
              cmd.userId.Canonical? && cmd.transactionId.Canonical?
              && cmd.transactionId.id in old(s.transactions)
              && var u := old(s.transactions)[cmd.transactionId.id];
              && u.userId == cmd.userId.id && u.accountId in old(s.accounts)
              && s.State() == Unposted(old(s.State()), u, now)
    ensures old(s.Consistent()) ==> s.Consistent()
  {
    if !cmd.userId.Canonical? {
      return Some(Validation("user_id", "invalid uuid type"));
    }
    if !cmd.transactionId.Canonical? {
      return Some(Validation("transaction_id", "invalid uuid type"));
    }
    var userId, txId := cmd.userId.id, cmd.transactionId.id;
    err := s.Begin(f.begin);
    if err.Some? {
      return;
    }
    ghost var before := s.State();
    var fnErr := Unpost(s, userId, txId, now, f);
    err := s.Finish(fnErr, f.rollback, f.commit);
    if err.None? && old(s.Consistent()) {
      UnpostedConsistent(before, txId, now);
    }
  }

  /** The body `DeleteTransaction` runs inside its scope. */
  method Unpost(s: Store, userId: Uuid, txId: Uuid, now: Time, f: Faults) returns (err: Option<Error>)
    requires s.scope.Some? && Keyed(s.State())
    modifies s
    ensures s.scope == old(s.scope) && Keyed(s.State())
    ensures f.getTx.None? && !(txId in old(s.transactions) && old(s.transactions)[txId].userId == userId) ==>
              err.Some? && err.value.NotFound? && s.State() == old(s.State())
    ensures err.None? ==>
              txId in old(s.transactions)
              && var u := old(s.transactions)[txId];
              && u.userId == userId && u.accountId in old(s.accounts)
              && s.State() == Unposted(old(s.State()), u, now)
  {
    var got := s.GetTransaction(txId, f.getTx);
    if got.Err? {
      return Some(got.error);
    }
    var t := got.value;
    if t.userId != userId {
      return Some(NotFound(TransactionItem));
    }
    var locked := s.GetAccount(t.accountId, f.getAccount);
    if locked.Err? {
      return Some(locked.error);
    }
    var account := locked.value;
    var _ := account.RevertTransaction(t, now);
    err := s.SaveAccount(account, f.saveAccount);
    if err.Some? {
      return;
    }
    err := s.DeleteTransaction(txId, f.deleteTx);
  }
}
