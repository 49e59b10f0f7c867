/**
 * internal/infrastructure/repository: the rows the repositories read and
 * write, the mappings between rows and entities, and the queries whose
 * results the repositories reshape (paging, totals, listing).
 *
 * A nullable column is an `Option`; an id column holds a `UuidText`. The
 * rows a query returns, in the database's order, are a parameter, and so is
 * the failure of each driver call.
 */
module RepoMappers {
  import opened Wrappers
  import opened Uuids
  import opened Times
  import opened Errors
  import opened PgErrors
  import opened Categories
  import opened Transactions
  import opened Accounts
  import opened Users
  import opened Store

  /** A row of `accounts`. */
  datatype AccountRow = AccountRow(id: UuidText, userId: UuidText, name: string, balance: int, isDefault: bool,
                                   createdAt: Time, updatedAt: Option<Time>)

  /** A row of `transactions`. */
  datatype TxRow = TxRow(
    id: UuidText, userId: UuidText, accountId: UuidText,
    categoryId: Option<int>, subcategoryId: Option<int>,
    trnType: string, status: string, amount: int, currencyCode: string,
    originalAmount: Option<int>, originalCurrencyCode: Option<string>, fxRate: Option<real>,
    rowText: string, performedAt: Option<Time>, rejectedAt: Option<Time>, createdAt: Time)

  /** A row of `users`; the table has no time zone column. */
  datatype UserRow = UserRow(
    id: UuidText, tgUserId: int, firstName: Option<string>, lastName: Option<string>, username: Option<string>,
    languageCode: string, currencyCode: string, createdAt: Time, updatedAt: Option<Time>)

  /** `pointer.XxxOrNil`: NULL for the zero value, the value otherwise. */
  function OrNil<T(==)>(x: T, zero: T): Option<T> {
    if x == zero then None else Some(x)
  }

  /**
   * Writing a value as nullable and reading it back with `pointer.XxxValue`
   * gives it back; reading a column and writing it again gives it back
   * exactly when it does not hold the zero value, which comes back as NULL.
   */
  lemma NullableRoundTrip<T>(x: T, o: Option<T>, zero: T)
    ensures OrNil(x, zero).GetOr(zero) == x
    ensures OrNil(x, zero).None? <==> x == zero
    ensures OrNil(o.GetOr(zero), zero) == o <==> o != Some(zero)
  {
  }

  // ---------------------------------------------------------------- accounts

  /** `accountsRepo.ToModel`: nil stays nil; a zero `UpdatedAt` is NULL. */
  function AccountToModel(e: Option<AccountRec>): Option<AccountRow> {
    match e
    case None => None
    case Some(a) =>
      Some(AccountRow(ToText(a.id), ToText(a.userId), a.name, a.balance, a.isDefault, a.createdAt,
                      OrNil(a.updatedAt, ZeroTime)))
  }

  /** `accountsRepo.ToEntity`: nil stays nil; ids that do not parse become `Nil`. */
  function AccountToEntity(m: Option<AccountRow>): Option<AccountRec> {
    match m
    case None => None
    case Some(r) =>
      Some(AccountRec(ParseOrNil(r.id), ParseOrNil(r.userId), r.name, r.balance, r.isDefault, r.createdAt,
                      r.updatedAt.GetOr(ZeroTime)))
  }

  /**
   * Every account survives being written and read back, field by field;
   * nil maps to nil both ways; a row survives being read and written back
   * exactly when both its ids are well formed and its `updated_at` is not a
   * stored zero time; a malformed id is read as `Nil`.
   */
  lemma AccountRoundTrip(e: Option<AccountRec>, m: Option<AccountRow>)
    ensures AccountToEntity(AccountToModel(e)) == e
    ensures AccountToModel(e).None? <==> e.None?
    ensures AccountToEntity(m).None? <==> m.None?
    ensures e.Some? ==> (AccountToModel(e).value.updatedAt.None? <==> e.value.updatedAt.IsZero())
    ensures m.Some? ==> (AccountToModel(AccountToEntity(m)) == m <==>
                           m.value.id.Canonical? && m.value.userId.Canonical? && m.value.updatedAt != Some(ZeroTime))
    ensures m.Some? && m.value.id.Malformed? ==> AccountToEntity(m).value.id == Nil
    ensures m.Some? && m.value.userId.Malformed? ==> AccountToEntity(m).value.userId == Nil
  {
    if m.Some? {
      NullableRoundTrip(ZeroTime, m.value.updatedAt, ZeroTime);
    }
  }

  /** `COALESCE(SUM(balance), 0)` over the rows of the user, in any order. */
  function SumBalances(rows: seq<AccountRec>, userId: Uuid): int {
    if rows == [] then 0
    else SumBalances(rows[..|rows| - 1], userId) + (if rows[|rows| - 1].userId == userId then rows[|rows| - 1].balance else 0)
  }

  /** The sum over two runs of rows is the sum of their sums. */
  lemma {:induction false} SumBalancesSplit(a: seq<AccountRec>, b: seq<AccountRec>, userId: Uuid)
    ensures SumBalances(a + b, userId) == SumBalances(a, userId) + SumBalances(b, userId)
  {
    if b == [] {
      assert a + b == a;
    } else {
      assert (a + b)[..|a + b| - 1] == a + b[..|b| - 1];
      SumBalancesSplit(a, b[..|b| - 1], userId);
    }
  }

  /** Rows of other users add nothing: with none of the user's own the total is 0. */
  lemma {:induction false} SumBalancesOwnOnly(rows: seq<AccountRec>, userId: Uuid)
    ensures (forall i :: 0 <= i < |rows| ==> rows[i].userId != userId) ==> SumBalances(rows, userId) == 0
  {
    if rows != [] {
      SumBalancesOwnOnly(rows[..|rows| - 1], userId);
    }
  }

  /** `accountsRepo.GetTotalBalance`: the user's total, 0 for a user with no accounts. */
  function GetTotalBalance(rows: seq<AccountRec>, userId: Uuid, fault: Option<Error>): (r: Result<int>)
    ensures fault.Some? ==> r == Err(RepoError(fault.value, AccountsModel))
    ensures fault.None? && (forall i :: 0 <= i < |rows| ==> rows[i].userId != userId) ==> r == Ok(0)
    ensures fault.None? ==> r.Ok?
  {
    if fault.Some? then Err(RepoError(fault.value, AccountsModel))
    else
      SumBalancesOwnOnly(rows, userId);
      Ok(SumBalances(rows, userId))
  }

  // ------------------------------------------------------------ transactions

  /** `transactionsRepo.ToModel`: the category and subcategory are written as their ids. */
  function TxToModel(e: Option<TxRec>): Option<TxRow> {
    match e
    case None => None
    case Some(t) =>
      Some(TxRow(ToText(t.id), ToText(t.userId), ToText(t.accountId),
                 if t.category.Some? then Some(t.category.value.id) else None,
                 if t.subcategory.Some? then Some(t.subcategory.value.id) else None,
                 t.trnType, t.status, t.amount, t.currencyCode,
                 OrNil(t.originalAmount, 0), OrNil(t.originalCurrencyCode, ""), OrNil(t.fxRate, 0.0),
                 t.rowText, OrNil(t.performedAt, ZeroTime), OrNil(t.rejectedAt, ZeroTime), t.createdAt))
  }

  /**
   * `transactionsRepo.ToEntity`: the category and subcategory are looked up
   * by id (`findCategory`, `findSubcategory`, None for a failed or empty
   * lookup); a failed lookup leaves the link nil.
   */
  function TxToEntity(m: Option<TxRow>, findCategory: int -> Option<Category>,
                      findSubcategory: int -> Option<Subcategory>): Option<TxRec> {
    match m
    case None => None
    case Some(r) =>
      Some(TxRec(ParseOrNil(r.id), ParseOrNil(r.userId), ParseOrNil(r.accountId),
                 if r.categoryId.Some? then findCategory(r.categoryId.value) else None,
                 if r.subcategoryId.Some? then findSubcategory(r.subcategoryId.value) else None,
                 r.trnType, r.status, r.amount, r.currencyCode,
                 r.originalAmount.GetOr(0), r.originalCurrencyCode.GetOr(""), r.fxRate.GetOr(0.0),
                 r.rowText, r.performedAt.GetOr(ZeroTime), r.rejectedAt.GetOr(ZeroTime), r.createdAt))
  }

  /** The lookups find the transaction's category and subcategory under their ids. */
  predicate LinksFound(t: TxRec, findCategory: int -> Option<Category>, findSubcategory: int -> Option<Subcategory>) {
    (t.category.Some? ==> findCategory(t.category.value.id) == t.category)
    && (t.subcategory.Some? ==> findSubcategory(t.subcategory.value.id) == t.subcategory)
  }

  /**
   * Every scalar field survives being written and read back; the category
   * and subcategory come back as whatever the lookups find under their ids,
   * so the whole transaction comes back when the lookups find them and a
   * link whose lookup fails comes back nil. A zero original amount, an empty
   * original currency, a zero rate and zero times are stored as NULL.
   */
  lemma TxRoundTrip(t: TxRec, findCategory: int -> Option<Category>, findSubcategory: int -> Option<Subcategory>)
    ensures var back := TxToEntity(TxToModel(Some(t)), findCategory, findSubcategory).value;
            && back.(category := t.category, subcategory := t.subcategory) == t
            && (LinksFound(t, findCategory, findSubcategory) ==> back == t)
            && (t.category.Some? && findCategory(t.category.value.id).None? ==> back.category.None?)
            && (t.subcategory.Some? && findSubcategory(t.subcategory.value.id).None? ==> back.subcategory.None?)
            && (t.category.None? ==> back.category.None?) && (t.subcategory.None? ==> back.subcategory.None?)
    ensures var row := TxToModel(Some(t)).value;
            && (row.originalAmount.None? <==> t.originalAmount == 0)
            && (row.originalCurrencyCode.None? <==> t.originalCurrencyCode == "")
            && (row.fxRate.None? <==> t.fxRate == 0.0)
            && (row.performedAt.None? <==> t.performedAt.IsZero())
            && (row.rejectedAt.None? <==> t.rejectedAt.IsZero())
  {
  }

  /** nil maps to nil both ways, and ids that do not parse are read as `Nil`. */
  lemma TxNilAndMalformed(e: Option<TxRec>, m: Option<TxRow>, findCategory: int -> Option<Category>,
                          findSubcategory: int -> Option<Subcategory>)
    ensures TxToModel(e).None? <==> e.None?
    ensures TxToEntity(m, findCategory, findSubcategory).None? <==> m.None?
    ensures m.Some? ==> var t := TxToEntity(m, findCategory, findSubcategory).value;
                        && (m.value.id.Malformed? ==> t.id == Nil)
                        && (m.value.userId.Malformed? ==> t.userId == Nil)
                        && (m.value.accountId.Malformed? ==> t.accountId == Nil)
  {
  }

  /**
   * The rows `GetByUserID` selects: the user's, and of those only the types
   * asked for when some are; the rows come in the order the query sorts
   * them (newest first).
   */
  function Selected(rows: seq<TxRow>, userId: Uuid, types: seq<TrnType>): (r: seq<TxRow>)
    ensures forall i :: 0 <= i < |r| ==> r[i] in rows && r[i].userId == ToText(userId)
    ensures |types| > 0 ==> forall i :: 0 <= i < |r| ==> r[i].trnType in types
    ensures forall x :: x in rows && x.userId == ToText(userId) && (|types| == 0 || x.trnType in types) ==> x in r
  {
    if rows == [] then []
    else
      var init := Selected(rows[..|rows| - 1], userId, types);
      var x := rows[|rows| - 1];
      if x.userId == ToText(userId) && (|types| == 0 || x.trnType in types) then init + [x] else init
  }

  /** The offset a query skips: only a positive offset is applied. */
  function Skip(n: int, offset: int): (r: nat)
    ensures r <= n || n < 0
  {
    if offset > 0 && n >= 0 then if offset < n then offset else n else 0
  }

  /**
   * The page `OFFSET`/`LIMIT` leave: a non-positive limit or offset is not
   * applied; what is left is the rows from the offset on, at most `limit`
   * of them.
   */
  function Page<T>(rows: seq<T>, limit: int, offset: int): (r: seq<T>)
    ensures limit <= 0 && offset <= 0 ==> r == rows
    ensures limit > 0 ==> |r| == if limit < |rows| - Skip(|rows|, offset) then limit else |rows| - Skip(|rows|, offset)
    ensures limit <= 0 ==> |r| == |rows| - Skip(|rows|, offset)
    ensures forall i :: 0 <= i < |r| ==> r[i] == rows[Skip(|rows|, offset) + i]
  {
    var rest := rows[Skip(|rows|, offset)..];
    if limit > 0 && limit < |rest| then rest[..limit] else rest
  }

  /** The pages of a positive limit cover the rows one after the other. */
  lemma {:induction false} PagesFollowOn<T>(rows: seq<T>, limit: int, k: nat)
    requires limit > 0 && (k + 1) * limit <= |rows|
    ensures Page(rows, limit, k * limit) + Page(rows, limit, (k + 1) * limit) == Page(rows, 2 * limit, k * limit)
  {
    var a := Page(rows, limit, k * limit);
    var b := Page(rows, limit, (k + 1) * limit);
    var c := Page(rows, 2 * limit, k * limit);
    assert k * limit + limit == (k + 1) * limit;
    assert Skip(|rows|, k * limit) == k * limit by {
      if k == 0 { assert k * limit == 0; }
    }
    assert Skip(|rows|, (k + 1) * limit) == (k + 1) * limit;
    assert |a| == limit;
    assert |c| == |a| + |b|;
    forall i | 0 <= i < |c|
      ensures c[i] == (a + b)[i]
    {
      if i >= limit {
        assert (a + b)[i] == b[i - limit];
      }
    }
  }

  /** The loop of `GetByUserID`: each selected row read back, in order. */
  method ReadTxs(models: seq<TxRow>, findCategory: int -> Option<Category>,
                 findSubcategory: int -> Option<Subcategory>) returns (txs: seq<TxRec>)
    ensures |txs| == |models|
    ensures forall j :: 0 <= j < |models| ==> Some(txs[j]) == TxToEntity(Some(models[j]), findCategory, findSubcategory)
  {
    txs := [];
    var i := 0;
    while i < |models|
      invariant 0 <= i <= |models| && |txs| == i
      invariant forall j :: 0 <= j < i ==> Some(txs[j]) == TxToEntity(Some(models[j]), findCategory, findSubcategory)
    {
      txs := txs + [TxToEntity(Some(models[i]), findCategory, findSubcategory).value];
      i := i + 1;
    }
  }

  /**
   * `transactionsRepo.GetByUserID`: the page of the user's selected
   * transactions, each read with `ToEntity`, and the number of selected rows
   * (the count query leaves out the limit and offset). `fault` is the
   * failure of the select, `countFault` that of the count.
   */
  method GetByUserID(rows: seq<TxRow>, limit: int, offset: int, userId: Uuid, types: seq<TrnType>,
                     findCategory: int -> Option<Category>, findSubcategory: int -> Option<Subcategory>,
                     fault: Option<Error>, countFault: Option<Error>)
    returns (r: Result<(seq<TxRec>, int)>)
    ensures fault.Some? ==> r == Err(RepoError(fault.value, TransactionsModel))
    ensures fault.None? && countFault.Some? ==> r == Err(RepoError(countFault.value, TransactionsModel))
    ensures r.Ok? <==> fault.None? && countFault.None?
    ensures r.Ok? ==> var page := Page(Selected(rows, userId, types), limit, offset);
                      && |r.value.0| == |page|
                      && (forall i :: 0 <= i < |page| ==>
                            Some(r.value.0[i]) == TxToEntity(Some(page[i]), findCategory, findSubcategory))
                      && r.value.1 == |Selected(rows, userId, types)|
  {
    if fault.Some? {
      return Err(RepoError(fault.value, TransactionsModel));
    }
    var models := Page(Selected(rows, userId, types), limit, offset);
    var transactions := ReadTxs(models, findCategory, findSubcategory);
    if countFault.Some? {
      return Err(RepoError(countFault.value, TransactionsModel));
    }
    return Ok((transactions, |Selected(rows, userId, types)|));
  }

  /** One row of a totals query: a category and the sum of its amounts. */
  datatype CategoryTotal = CategoryTotal(categoryId: int, total: int)

  /** The totals map, each row set in turn. */
  function TotalsMap(results: seq<CategoryTotal>): map<int, int> {
    if results == [] then map[]
    else TotalsMap(results[..|results| - 1])[results[|results| - 1].categoryId := results[|results| - 1].total]
  }

  /** The map holds the ids of the results, each with the total of the last row for it. */
  lemma {:induction false} TotalsMapHoldsLast(results: seq<CategoryTotal>)
    ensures TotalsMap(results).Keys == set i | 0 <= i < |results| :: results[i].categoryId
    ensures forall i :: 0 <= i < |results| && (forall j :: i < j < |results| ==> results[j].categoryId != results[i].categoryId)
              ==> TotalsMap(results)[results[i].categoryId] == results[i].total
  {
    if results != [] {
      var init := results[..|results| - 1];
      TotalsMapHoldsLast(init);
      assert forall i :: 0 <= i < |init| ==> init[i] == results[i];
      assert (set i | 0 <= i < |results| :: results[i].categoryId)
          == (set i | 0 <= i < |init| :: init[i].categoryId) + {results[|results| - 1].categoryId};
    }
  }

  /**
   * `GetTotalsByCategories` (and the same loop of
   * `GetTotalsByCategoriesAndAccount`): the category ids in result order and
   * the map of totals.
   */
  method GetTotalsByCategories(results: seq<CategoryTotal>, fault: Option<Error>)
    returns (r: Result<(map<int, int>, seq<int>)>)
    ensures fault.Some? ==> r == Err(RepoError(fault.value, TransactionsModel))
    ensures fault.None? ==> r.Ok?
    ensures r.Ok? ==> && |r.value.1| == |results|
                      && (forall i :: 0 <= i < |results| ==> r.value.1[i] == results[i].categoryId)
                      && r.value.0 == TotalsMap(results)
  {
    if fault.Some? {
      return Err(RepoError(fault.value, TransactionsModel));
    }
    var totals: map<int, int> := map[];
    var categories: seq<int> := [];
    var i := 0;
    while i < |results|
      invariant 0 <= i <= |results| && |categories| == i && totals == TotalsMap(results[..i])
      invariant forall j :: 0 <= j < i ==> categories[j] == results[j].categoryId
    {
      assert results[..i + 1][..i] == results[..i];
      categories := categories + [results[i].categoryId];
      totals := totals[results[i].categoryId := results[i].total];
      i := i + 1;
    }
    assert results[..|results|] == results;
    return Ok((totals, categories));
  }

  /**
   * Grouped by category, the results name each category once, so every
   * listed category has its own row's total and nothing else is in the map.
   */
  lemma GroupedTotals(results: seq<CategoryTotal>)
    requires forall i, j :: 0 <= i < j < |results| ==> results[i].categoryId != results[j].categoryId
    ensures forall i :: 0 <= i < |results| ==>
              results[i].categoryId in TotalsMap(results) && TotalsMap(results)[results[i].categoryId] == results[i].total
    ensures forall c :: c in TotalsMap(results) <==> exists i :: 0 <= i < |results| && results[i].categoryId == c
  {
    TotalsMapHoldsLast(results);
  }

  // ------------------------------------------------------------------- users

  /** `usersRepo.ToModel` on a user: empty names are NULL, and the time zone is not written. */
  function UserModel(u: UserRec): UserRow {
    UserRow(ToText(u.id), u.tgUserId, OrNil(u.firstName, ""), OrNil(u.lastName, ""), OrNil(u.username, ""),
            u.languageCode, u.currencyCode, u.createdAt, OrNil(u.updatedAt, ZeroTime))
  }

  /** `usersRepo.ToEntity` on a row: NULL names are read as "", and there is no time zone. */
  function UserEntity(m: UserRow): UserRec {
    UserRec(ParseOrNil(m.id), m.tgUserId, m.firstName.GetOr(""), m.lastName.GetOr(""), m.username.GetOr(""),
            m.languageCode, m.currencyCode, "", m.createdAt, m.updatedAt.GetOr(ZeroTime))
  }

  /** `usersRepo.ToModel`: nil stays nil. */
  function UserToModel(e: Option<UserRec>): Option<UserRow> {
    if e.None? then None else Some(UserModel(e.value))
  }

  /** `usersRepo.ToEntity`: nil stays nil. */
  function UserToEntity(m: Option<UserRow>): Option<UserRec> {
    if m.None? then None else Some(UserEntity(m.value))
  }

  /**
   * A user survives being written and read back except for the time zone,
   * which comes back empty; empty names are stored as NULL and NULL names are
   * read as ""; nil maps to nil both ways.
   */
  lemma UserRoundTrip(e: Option<UserRec>, m: Option<UserRow>)
    ensures e.Some? ==> UserToEntity(UserToModel(e)) == Some(e.value.(timezone := ""))
    ensures e.Some? ==> (UserToEntity(UserToModel(e)) == e <==> e.value.timezone == "")
    ensures UserToModel(e).None? <==> e.None?
    ensures UserToEntity(m).None? <==> m.None?
    ensures e.Some? ==> var row := UserToModel(e).value;
                        && (row.firstName.None? <==> e.value.firstName == "")
                        && (row.lastName.None? <==> e.value.lastName == "")
                        && (row.username.None? <==> e.value.username == "")
    ensures m.Some? && m.value.firstName.None? ==> UserToEntity(m).value.firstName == ""
    ensures m.Some? && m.value.id.Malformed? ==> UserToEntity(m).value.id == Nil
  {
  }

  /** `usersRepo.FindAll`: one user per row, in row order. */
  method FindAll(rows: seq<UserRow>, fault: Option<Error>) returns (r: Result<seq<UserRec>>)
    ensures fault.Some? ==> r == Err(RepoError(fault.value, UsersModel))
    ensures fault.None? ==> r.Ok? && |r.value| == |rows|
    ensures r.Ok? ==> forall i :: 0 <= i < |rows| ==> r.value[i] == UserEntity(rows[i])
  {
    if fault.Some? {
      return Err(RepoError(fault.value, UsersModel));
    }
    var users: seq<UserRec> := [];
    var i := 0;
    while i < |rows|
      invariant 0 <= i <= |rows| && |users| == i
      invariant forall j :: 0 <= j < i ==> users[j] == UserEntity(rows[j])
    {
      users := users + [UserEntity(rows[i])];
      i := i + 1;
    }
    return Ok(users);
  }

  // ------------------------------------------------------------------ upserts

  /**
   * The account upsert overwrites every column but `created_at`: a saved
   * account reads back as itself, with the creation time of the row it
   * replaced.
   */
  lemma SaveAccountColumns(rows: map<Uuid, AccountRec>, a: AccountRec)
    ensures a.id in rows ==> UpsertAccount(rows, a) == a.(createdAt := rows[a.id].createdAt)
    ensures a.id !in rows ==> UpsertAccount(rows, a) == a
  {
  }

  /**
   * The transaction upsert overwrites every column but `created_at` and
   * `subcategory_id`: for an existing row a changed subcategory is lost.
   */
  lemma SaveTxColumns(rows: map<Uuid, TxRec>, t: TxRec)
    ensures t.id in rows ==> UpsertTx(rows, t) == t.(createdAt := rows[t.id].createdAt, subcategory := rows[t.id].subcategory)
    ensures t.id !in rows ==> UpsertTx(rows, t) == t
    ensures t.id in rows && t.subcategory != rows[t.id].subcategory ==> UpsertTx(rows, t) != t
  {
  }

  /** The user upsert overwrites every column but `created_at`, and there is no time zone column. */
  lemma SaveUserColumns(rows: map<Uuid, UserRec>, u: UserRec)
    ensures u.id in rows ==> UpsertUser(rows, u) == u.(createdAt := rows[u.id].createdAt, timezone := "")
    ensures u.id !in rows ==> UpsertUser(rows, u) == u.(timezone := "")
  {
  }
}
