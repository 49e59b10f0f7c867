# e-wallet ledger core in Dafny

This project models the core of the e-wallet service: a personal-finance ledger in which users hold accounts, each with a cached balance in integer minor units. Deposits and withdrawals move those balances. It also proves properties of that model.

## What is modelled

- **Aggregates** (`accounts.dfy`, `transactions.dfy`, `users.dfy`, `categories.dfy`): the `Account`, `Transaction` and `User` entities as classes whose methods update their fields in place, each read through a value-level `Rec()`.
  - `ApplyTransaction` adds the effect of a transaction: plus the amount for a deposit, minus it for a withdrawal.
  - `RevertTransaction` takes the effect away again. Both wrap at 64 bits as Go's `int64` does.
  - The transaction setters refuse bad values without touching the entity.
  - `Update` rewrites the economic fields step by step and stops at the first refused value.
- **Money** (`money.dfy`): the per-currency decimal scale, and the conversions between major and minor units, with rounding half away from zero.
- **Store and scope** (`store.dfy`, `trx.dfy`, `ledger.dfy`): the three tables keyed by id, the upsert column sets of the repositories, and `WithTx`.
  - `WithTx` is modelled as a snapshot that is kept on success and restored on any error.
  - The ledger invariant: every stored balance equals the sum of the effects of its account's stored transactions, wrapped to 64 bits.
- **Commands** (`transaction_commands.dfy`, `account_commands.dfy`, `user_commands.dfy`, `accounts_service.dfy`):
  - create, update and delete transaction;
  - create, update and delete account;
  - Telegram sign-in and user update;
  - making an account the default.
  
  Each command is stated against a value-level function of the old tables. For the transaction commands the proofs show three things:
  - the balance moves by exactly `effect(new) - effect(old)`;
  - the ledger invariant is preserved;
  - a missing or foreign transaction, or any failing step, leaves the tables as they were.
- **Errors** (`errors.dfy`, `pg_errors.dfy`, `apierr.dfy`):
  - the domain errors and their `Is` tests;
  - the SQLSTATE class 23 mapping of PostgreSQL errors (PostgreSQL documentation, Appendix A);
  - the API error registry's first-match table, and the response its handler builds.
- **Persistence mappers** (`repo_mappers.dfy`): the entity-to-row mappings and their round trips, paging, the balance total, and the folding of category totals.
- **Reference data** (`dictionary.dfy`, `category_dicts.dfy`): the in-memory dictionary cache with its expiry and reload, and the owner filters of the category and subcategory dictionaries.
- **Reminders** (`reminder.dfy`):
  - the hour and category counts;
  - the top-three choice;
  - the reminder text;
  - the delay to the next peak hour.
- **Utilities** (`times.dfy`, `utils.dfy`, `retry.dfy`, `stopwatch.dfy`, `kafka.dfy`, `otlp.dfy`, `app_consts.dfy`, `text.dfy`, `uuids.dfy`, `wrappers.dfy`):
  - date comparison and period starts;
  - rune truncation;
  - markdown-fence stripping;
  - the retry loop;
  - the stopwatch state machine;
  - Kafka event-id derivation;
  - propagator de-duplication and sampler choice;
  - the environment and log-level enums.

Inputs the code takes from outside appear as parameters:
- the failure of each database call (`Faults`, `Option<Error>`);
- the clock (`now`);
- the ids `uuid.New` draws;
- the random text choice;
- the rows a query returns, in the database's order;
- the order in which Go ranges over a map (any remaining key).

Where the code departs from the documented design, the model follows the code:
- The create command maps "income" to a deposit, but the update command maps "deposit" to one (`TransactionCommands.TypeRulesDisagree`).
- Deleting an account does not check for, or remove, its transactions.
- Updating or deleting an account, and creating a transaction, do not check that the account belongs to the caller.
- The transaction upsert does not write `subcategory_id`, so a changed subcategory is lost on save (`RepoMappers.SaveTxColumns`).
- `CreateAccount` uses no `WithTx` at all: the account save, the lookup of the Other category and the deposit save each commit on their own (see Findings).

The snapshot does not compile as a whole. Where call sites and definitions disagree, the model uses the definitions:
- `create_transaction.go:119-127` and `:133` call `NewTransaction` and `SetAmountMajor` with signatures other than those in `internal/entities/transactions.go`. The model uses the entity signatures and gives the user's currency to `SetAmountMajor`.
- `record_reminder_calculate.go:64` calls `GetByUserID` with four arguments where the interface takes five. The model reads all of the user's transactions.
- `subcategories.go` names the languages `EN` and `UZ`, which `shared.go` does not define. The model gives them their own names.

## Model

| member | source | states |
|---|---|---|
| AppConsts.EnvironmentString | pkg/app/consts.go:11-13 | the text an environment converts to gives back the same environment |
| AppConsts.LogLevelString | pkg/app/consts.go:28-30 | the text a log level converts to gives back the same level |
| AppConsts.ValidNames | pkg/app/consts.go:15-34 | an environment is valid iff it is "production", "development" or "local"; a level iff it is "DEBUG", "INFO", "WARN" or "ERROR", so "debug" and "Production" are not |
| AppConsts.EnvironmentIsValid | pkg/app/consts.go:15-17 | an environment is valid exactly when it is production, development or local (spelled out by `ValidNames`) |
| AppConsts.LogLevelIsValid | pkg/app/consts.go:32-34 | a log level is valid exactly when it is DEBUG, INFO, WARN or ERROR (spelled out by `ValidNames`) |
| Uuids.ParseOrNil | internal/infrastructure/repository/accounts.go:139-140 | a malformed id text becomes the Nil UUID, a canonical one gives back its id |
| Uuids.ToText | internal/infrastructure/repository/accounts.go:122-123 | `String()` of an id: its canonical text, which `Parse` reads back |
| Uuids.Parse | internal/infrastructure/repository/accounts.go:139-140 | the text `String()` writes for an id parses back to that id, and a text the model calls malformed fails |
| Errors.NewErrHttp | internal/inerr/http.go:30-36 | the result is a pointer to an ErrHttp keeping status, message and body, with no method, no endpoint and a zero duration |
| Errors.NewErrHttpIgnoresRequest | internal/inerr/http.go:17-36 | the method and endpoint leave no trace, and the message is Message + ": " + Body |
| Errors.IsMethodByType | internal/inerr/db.go:11-18 | the Is method of each inerr type (db.go, validation.go, http.go, auth.go) matches exactly the targets of its own type, by value or by pointer |
| Errors.NotFoundMatchesAnyItem | internal/inerr/db.go:7-18 | two ErrNotFound values are errors.Is-equal whatever their items, by value or pointer, and never equal to an ErrConflict or ErrNoChanges |
| Errors.MessageDeterminesItem | internal/inerr/db.go:7-53 | the messages item + " not found" / " conflict" / " no changes" determine the item |
| Errors.Message | internal/inerr/db.go:7-53 | `Error()` of each kind: item + " not found" / " conflict" / " no changes", item + " is invalid: " + msg (validation.go:8-10), message + ": " + body (http.go:17-19), the inner message for an invalid token (auth.go:15-17); used by `MessageDeterminesItem` |
| Errors.KindOf | internal/inerr/db.go:11-18 | the type an `Is` method's type assertion sees: a struct value or a pointer to one, and nothing for any other error |
| Errors.IsMethod | internal/inerr/db.go:11-18 | the `Is` method: a target of the same inerr type, by value or pointer, whatever its fields (characterised by `IsMethodByType`) |
| Errors.GoIs | internal/inerr/db.go:11-18 | `errors.Is`: equality for comparable targets, then the `Is` method, then down the `%w` chain (used by `NotFoundMatchesAnyItem` and `PgErrors.WrappedNoRowsIsNotFound`) |
| Errors.NewErrNotFound | internal/inerr/db.go:20-22 | an ErrNotFound value, not a pointer, carrying the item |
| Errors.NewErrConflict | internal/inerr/db.go:41-45 | an ErrConflict value carrying the item |
| Errors.NewErrNoChanges | internal/inerr/db.go:64-68 | an ErrNoChanges value carrying the item |
| Errors.NewErrValidation | internal/inerr/validation.go:21-26 | an ErrValidation value carrying the item and the message |
| Errors.NewErrInvalidToken | internal/inerr/auth.go:28-30 | an ErrInvalidToken value wrapping the error, whose message is the wrapped error's |
| Categories.NewUserSubcategory | internal/entities/subcategories.go:24-50 | category id 0, then a Nil user, then an empty name are refused with their messages; otherwise the name in all three languages, the emoji and id 0 |
| Categories.GetName | internal/entities/subcategories.go:52-63 | the Russian or Uzbek name for those languages, the English name for every other |
| Categories.NewSubcategoryNameInEveryLanguage | internal/entities/subcategories.go:42-63 | a subcategory a user creates answers with its one name in every language |
| Users.User.NewUser | internal/entities/users.go:24-38 | fails iff the Telegram id is 0; otherwise the names as given, empty language, currency and time zone, created and updated now |
| Users.User.UpdateLanguageCode | internal/entities/users.go:40-43 | only the language code and the update time change |
| Users.User.UpdateCurrencyCode | internal/entities/users.go:45-48 | only the currency code and the update time change |
| Users.User.UpdateTimezone | internal/entities/users.go:50-53 | only the time zone and the update time change |
| Errors.AsPg | pkg/database/postgres/errors.go:38-39 | errors.As finds a PostgreSQL error, the error itself when it is one |
| Errors.WrapKeepsIs | pkg/database/postgres/errors.go:49 | wrapping with %w keeps every errors.Is answer of the wrapped error |
| PgErrors.ContainsAny | pkg/database/postgres/errors.go:166-171 | true iff one of the keywords occurs in the text |
| PgErrors.IsConnectionError | pkg/database/postgres/errors.go:151-172 | true iff the lower-cased message contains one of the ten keywords |
| PgErrors.MapPgError | pkg/database/postgres/errors.go:52-149 | SQLSTATE 23000, 23001 and 23505, and no other code, give ErrConflict for the model; every other code gives a plain message |
| PgErrors.DbError | pkg/database/postgres/errors.go:15-50 | nil iff nil; a no-rows error (by errors.Is or by message, any case) is NotFound for the model; nothing else is NotFound; a conflict names the model |
| PgErrors.RepoError | pkg/database/postgres/errors.go:15-50 | a repository's failing call: not found exactly for a no-rows fault |
| PgErrors.DbErrorConflictIff | pkg/database/postgres/errors.go:23-41 | a conflict results iff the error is not no-rows, timeout or cancellation and carries a driver error with a class 23 conflict code |
| PgErrors.FallbackKeepsCause | pkg/database/postgres/errors.go:48-49 | the fallback wraps, so errors.Is still finds the original error |
| PgErrors.WrappedNoRowsIsNotFound | pkg/database/postgres/errors.go:24-26 | sql.ErrNoRows however deeply wrapped maps to NotFound |
| PgErrors.IsNoRows | pkg/database/postgres/errors.go:24 | the first branch of `Error`: `errors.Is(err, sql.ErrNoRows)`, or "no rows" in the lower-cased message (used by `DbError`) |
| Money.Scale | internal/entities/shared.go:40-45 | the table's scale for a listed currency, 2 for any other code including the empty one |
| Money.ScaleTable | internal/entities/shared.go:27-45 | RUB, USD, EUR and UZS have scale 2, JPY 0, KWD 3, the empty code 2, and no scale exceeds 3 |
| Money.Round | internal/entities/shared.go:49 | math.Round: within one half of the value, halves away from zero, sign kept |
| Money.ToInt64 | internal/entities/shared.go:49 | the int64 conversion keeps an in-range value and gives the smallest int64 otherwise |
| Money.MinorFromMajor | internal/entities/shared.go:47-50 | an int64 within one half of major × 10^scale whenever that rounds into range |
| Money.MajorFromMinor | internal/entities/shared.go:52-55 | scaling the result back by 10^scale gives exactly the minor amount |
| Money.MinorMajorRoundTrip | internal/entities/shared.go:47-55 | MinorFromMajor(MajorFromMinor(m, s), s) == m for every int64 m |
| Money.MinorFromMajorMonotone | internal/entities/shared.go:47-50 | a larger major amount never gives fewer minor units |
| Money.MinorFromMajorNonNegative | internal/entities/shared.go:47-50 | a non-negative major amount never gives a negative minor amount, short of the out-of-range value |
| Money.Wrap64 | internal/entities/accounts.go:80-82 | int64 two's-complement arithmetic: the result is in range and an in-range value is kept |
| Money.WrapAdd | internal/entities/accounts.go:80-82 | wrapping after each int64 addition is the same as wrapping once at the end |
| Accounts.Applied | internal/entities/accounts.go:78-83 | the balance after a posting is the old balance plus the posting's effect (+amount for a deposit, −amount for a withdrawal, 0 otherwise), wrapped to int64 |
| Accounts.Reverted | internal/entities/accounts.go:95-100 | the balance after a revert is the old balance minus the posting's effect, wrapped to int64 |
| Accounts.ApplyTwice | internal/entities/accounts.go:73-88 | two postings move the balance by the sum of their effects |
| Accounts.RevertThenApply | internal/entities/accounts.go:73-105 | a revert then a posting move the balance by effect(new) − effect(old) |
| Accounts.ApplyThenRevert | internal/entities/accounts.go:73-105 | a posting then a revert move the balance by the difference of their effects |
| Accounts.RevertInvertsApply | internal/entities/accounts.go:73-105 | RevertTransaction undoes ApplyTransaction on the balance, and the other way round |
| Accounts.PostingsCommute | internal/entities/accounts.go:73-105 | postings and reverts commute on the balance |
| Accounts.Account.NewAccount | internal/entities/accounts.go:22-35 | fails iff the owner is Nil; otherwise balance 0, not default, the name as given, created and updated now |
| Accounts.Account.SetAmountMajor | internal/entities/accounts.go:37-44 | fails iff the amount is negative, leaving the account as it was; otherwise the balance is the amount in the currency's minor units |
| Accounts.Account.SetAmountMinor | internal/entities/accounts.go:46-53 | fails iff the amount is negative, leaving the account as it was; otherwise the balance is the amount |
| Accounts.Account.UpdateDefault | internal/entities/accounts.go:63-66 | only the default flag and the update time change, never the balance |
| Accounts.Account.UpdateName | internal/entities/accounts.go:68-71 | only the name and the update time change, never the balance |
| Accounts.Account.ApplyTransaction | internal/entities/accounts.go:73-88 | never fails; nil changes nothing, not even the update time; otherwise the balance is Applied to the posting and the update time is now |
| Accounts.Account.RevertTransaction | internal/entities/accounts.go:90-105 | never fails; nil changes nothing; otherwise the balance is Reverted by the posting and the update time is now |
| Transactions.Effect | internal/entities/accounts.go:78-83 | a deposit adds its amount, a withdrawal subtracts it, a transfer or adjustment moves nothing |
| Transactions.SettersRefuseCleanly | internal/entities/transactions.go:92-171 | SetAmountMajor and SetOriginalAmountMajor refuse a negative amount or an empty currency, SetFxRate a rate ≤ 0, each changing nothing; otherwise each stores exactly its own fields |
| Transactions.UpdateOutcome | internal/entities/transactions.go:178-229 | Update fails exactly on a refused amount, original amount or rate; even then the type, text and category are already written; ids, creation and rejection times never change |
| Transactions.AmountKeeps | internal/entities/transactions.go:92-104 | SetAmountMajor fails exactly on a refused amount and touches only the amount and currency |
| Transactions.OriginalKeeps | internal/entities/transactions.go:203-220 | the original-amount step of Update fails exactly on a refused original amount or rate and touches nothing else |
| Transactions.PerformedKeeps | internal/entities/transactions.go:222-226 | the performed-time step touches only the status and the performed time |
| Transactions.UpdateSuccess | internal/entities/transactions.go:198-226 | a successful Update stores the new amount, sets or clears the original pair, keeps the old rate when none is given, and takes the given performed time, else the old one, else now |
| Transactions.Transaction.NewTransaction | internal/entities/transactions.go:57-79 | a Nil user id is refused first, then a Nil account id; otherwise status new, amount 0, no links, created now |
| Transactions.Transaction.Categorise | internal/entities/transactions.go:81-90 | never fails; replaces only the links that are given |
| Transactions.Transaction.SetAmountMajor | internal/entities/transactions.go:92-104 | the new state and error are those of AmountMajorSet (see SettersRefuseCleanly) |
| Transactions.Transaction.SetAmountMinor | internal/entities/transactions.go:106-118 | a negative amount, then an empty currency, are refused and change nothing; otherwise amount and currency are stored |
| Transactions.Transaction.SetOriginalAmountMajor | internal/entities/transactions.go:128-140 | the new state and error are those of OriginalMajorSet (see SettersRefuseCleanly) |
| Transactions.Transaction.SetOriginalAmountMinor | internal/entities/transactions.go:142-154 | a negative original amount, then an empty currency, are refused and change nothing; otherwise both are stored |
| Transactions.Transaction.SetFxRate | internal/entities/transactions.go:164-171 | the new state and error are those of FxRateSet (see SettersRefuseCleanly) |
| Transactions.Transaction.Performed | internal/entities/transactions.go:173-176 | the status is completed and the performed time is the argument |
| Transactions.Transaction.Update | internal/entities/transactions.go:178-229 | the new state and error are those of Updated, characterised by UpdateOutcome and UpdateSuccess |
| Transactions.Transaction.UpdateHead | internal/entities/transactions.go:190-201 | type and text, then the category, then the amount are written, as the first steps of Updated |
| Transactions.Transaction.UpdateOriginal | internal/entities/transactions.go:203-220 | the original pair and rate are set, or cleared, as OriginalSet says |
| Transactions.Transaction.UpdatePerformed | internal/entities/transactions.go:222-226 | the given time, else now when no time was set, else nothing changes |
| Transactions.Created | internal/entities/transactions.go:57-79 | the transaction `NewTransaction` builds: status new, amount 0, no links, no original amount or rate, created now (the state `Transaction.NewTransaction` ensures) |
| Transactions.Categorised | internal/entities/transactions.go:81-90 | `Categorise`: a given category or subcategory replaces the old link, a nil one keeps it |
| Transactions.AmountMajorSet | internal/entities/transactions.go:92-104 | `SetAmountMajor`: a negative amount, then an empty currency, are refused and change nothing; otherwise the minor amount in the currency's scale and the currency (`SettersRefuseCleanly`) |
| Transactions.OriginalMajorSet | internal/entities/transactions.go:128-140 | `SetOriginalAmountMajor`: as `AmountMajorSet`, for the original amount and currency, with its own message (`SettersRefuseCleanly`) |
| Transactions.FxRateSet | internal/entities/transactions.go:164-171 | `SetFxRate`: a rate of at most 0 is refused and changes nothing, otherwise it is stored (`SettersRefuseCleanly`) |
| Transactions.Updated | internal/entities/transactions.go:178-229 | `Update`: type and text, category, amount, original amount and rate, then performed time, stopping at the first refusal (characterised by `UpdateOutcome` and `UpdateSuccess`) |
| Times.DateComparisonsDual | pkg/utils/time.go:6-91 | IsBefore is the strict and IsBeforeOrEqual the non-strict lexicographic order on (year, month, day); IsAfterOrEqual is !IsBefore, IsAfter is !IsBeforeOrEqual, and before(a, b) is after(b, a) |
| Times.DateComparisons | pkg/utils/time.go:6-91 | on real dates each comparison is the matching comparison of calendar day numbers, the clock ignored |
| Times.IsBeforeOrEqual | pkg/utils/time.go:6-26 | years, then months, then days compared, the day non-strictly (characterised by `DateComparisonsDual` and `DateComparisons`) |
| Times.IsBefore | pkg/utils/time.go:28-48 | as `IsBeforeOrEqual` with the day compared strictly |
| Times.IsAfterOrEqual | pkg/utils/time.go:50-70 | the mirror image of `IsBeforeOrEqual`, equal to `!IsBefore` (`DateComparisonsDual`) |
| Times.IsAfter | pkg/utils/time.go:72-91 | the mirror image of `IsBefore`, equal to `!IsBeforeOrEqual` (`DateComparisonsDual`) |
| Times.StartOfDate | pkg/utils/time.go:112-114 | the same calendar day at midnight, at or before the time and less than a day before it |
| Times.EndOfDate | pkg/utils/time.go:117-119 | the same calendar day at 23:59:59, the last second of that day |
| Times.MinusDays | pkg/utils/time.go:135 | AddDate with −k days: a real date k day numbers earlier with the same clock |
| Times.MondayOffset | pkg/utils/time.go:130-134 | the offset is the weekday minus one, Sunday counting as 7, so the day that many days back is a Monday |
| Times.StartOfWeek | pkg/utils/time.go:128-135 | midnight of a Monday at most six days before now |
| Times.StartDateByPeriod | pkg/utils/time.go:123-142 | nil iff the period is not "day", "week" or "month"; otherwise a midnight: today, this week's Monday, or the first of this month |
| Utils.Truncate | pkg/utils/string.go:3-9 | the text itself when it has at most n runes; otherwise a prefix of exactly n runes |
| Utils.TruncateWithSuffix | pkg/utils/string.go:11-17 | what Truncate keeps, followed by the suffix exactly when something was cut |
| Utils.TruncateWithPrefix | pkg/utils/string.go:19-25 | the text itself when short enough; otherwise the prefix followed by all but the first n runes |
| Utils.TruncationsSplit | pkg/utils/string.go:3-25 | truncating twice is truncating once, and what Truncate keeps followed by what TruncateWithPrefix keeps after its prefix is the whole text |
| Utils.CleanMarkdownJSON | pkg/utils/json.go:5-22 | the result has no white space at either end |
| Utils.UnfencedIsTrimmed | pkg/utils/json.go:5-22 | a text whose trimmed form neither starts nor ends with ``` comes back just trimmed |
| Utils.CleanUndoesFence | pkg/utils/json.go:9-19 | a trimmed body fenced with ```json or with a bare ``` comes back exactly |
| Utils.OneFenceEachEnd | pkg/utils/json.go:9-19 | at most one fence goes at each end: a body fenced twice comes back fenced once |
| Ledger.PostKeepsConsistent | internal/usecase/transactions/command/create_transaction.go:140-156 | posting a new transaction and saving its account with the Applied balance keeps every balance equal to the int64 sum of its transactions' effects |
| Ledger.RepostKeepsConsistent | internal/usecase/transactions/command/update_transaction.go:150-193 | replacing a stored transaction on the same account and saving the account reverted by the old and applied with the new keeps the ledger consistent |
| Ledger.UnpostKeepsConsistent | internal/usecase/transactions/command/delete_transaction.go:89-105 | deleting a stored transaction and saving its account reverted by it keeps the ledger consistent |
| Ledger.RestoreKeepsConsistent | internal/usecase/accounts/command/update_account.go:84-92 | saving an account again with its balance untouched keeps the ledger consistent |
| Ledger.RemoveAccountKeepsConsistent | internal/usecase/accounts/command/delete_account.go:82-86 | deleting an account keeps the ledger consistent for the remaining accounts |
| Ledger.SumOfUnposted | internal/usecase/accounts/command/create_account.go:77-85 | an account nothing is posted against has an effect sum of zero |
| Ledger.OpenKeepsConsistent | internal/usecase/accounts/command/create_account.go:82-126 | opening an account whose balance is the effect of its opening deposit, and saving that deposit, keeps the ledger consistent |
| Ledger.OpenEmptyKeepsConsistent | internal/usecase/accounts/command/create_account.go:77-91 | opening an account with balance 0 and no transaction keeps the ledger consistent |
| Trx.FromContext | pkg/database/postgres/trx.go:12-18 | the transaction stored in the context when there is one, else the default handle |
| Trx.WithTx | pkg/database/postgres/trx.go:32-54 | a failed begin never calls the function and returns the wrapped error; the transaction is committed iff begin, the function and commit all succeed; a panic is raised again after rollback |
| Trx.CommitIffNoError | pkg/database/postgres/trx.go:32-54 | the work is committed iff WithTx returns nil without panicking |
| Trx.FnErrorReturned | pkg/database/postgres/trx.go:46-51 | the function's error comes back unchanged when rollback succeeds; when rollback fails too, a flat message no domain error type recognises |
| Trx.FnSeesNewTx | pkg/database/postgres/trx.go:45 | the function sees the new transaction, whatever the caller's context carried, so a nested call does not reuse an outer one |
| Trx.WithTxValue | pkg/database/postgres/trx.go:45 | `context.WithValue` stores the transaction, so `FromContext` then finds it (`FnSeesNewTx`) |
| Store.UpsertAccount | internal/infrastructure/repository/accounts.go:36-53 | the stored row carries the saved id, owner and balance (the upsert overwrites them on conflict) |
| Store.UpsertTx | internal/infrastructure/repository/transactions.go:49-68 | the stored row carries the saved id, account, type and amount, so its effect on the balance is that of the saved transaction (subcategory_id is not in the update list) |
| Store.UpsertUser | internal/infrastructure/repository/users.go:38-51 | the stored row carries the saved id and Telegram id, and an empty time zone, since the users row has no time zone column (users.go:105-123) |
| Store.Posted | internal/usecase/transactions/command/create_transaction.go:140-156 | posting touches no user and adds or removes no account |
| Store.Reposted | internal/usecase/transactions/command/update_transaction.go:150-193 | re-posting touches no user and adds or removes no account |
| Store.Unposted | internal/usecase/transactions/command/delete_transaction.go:89-105 | un-posting touches no user, adds or removes no account, and removes the transaction row |
| Store.PostedDelta | internal/usecase/transactions/command/create_transaction.go:140-150 | the posted account's balance moves by exactly the transaction's effect and no other account changes |
| Store.RepostedDelta | internal/usecase/transactions/command/update_transaction.go:150-180 | the account's balance moves by exactly effect(new) − effect(old) and no other account changes |
| Store.UnpostedDelta | internal/usecase/transactions/command/delete_transaction.go:89-105 | the balance moves by −effect, no other account changes, and exactly that row is deleted |
| Store.CreateThenDeleteRestores | internal/usecase/transactions/command/delete_transaction.go:89-101 | creating a transaction and then deleting it restores the balance and the transactions table |
| Store.PostedConsistent | internal/usecase/transactions/command/create_transaction.go:140-156 | posting under a fresh id keeps every row under its key and the ledger consistent |
| Store.RepostedConsistent | internal/usecase/transactions/command/update_transaction.go:150-193 | re-posting a stored transaction on its own account keeps the ledger consistent |
| Store.UnpostedConsistent | internal/usecase/transactions/command/delete_transaction.go:89-105 | un-posting a stored transaction keeps the ledger consistent |
| Store.Store.Begin | pkg/database/postgres/trx.go:32-36 | a failed begin returns the wrapped "failed to begin transaction" error and opens no scope; otherwise the tables are snapshotted and unchanged |
| Store.Store.Finish | pkg/database/postgres/trx.go:46-53 | the error is the one `WithTx` returns; commit keeps the tables, and a function error or a failed commit puts back the snapshot |
| Store.Store.GetAccount | internal/infrastructure/repository/accounts.go:54-66 | a driver fault gives the mapped repository error, an absent id gives NotFound, otherwise a new object holding exactly the stored row |
| Store.Store.SaveAccount | internal/infrastructure/repository/accounts.go:36-53 | a fault leaves the tables unchanged and returns the mapped error; otherwise only the account's row changes, to the upserted row |
| Store.Store.GetAccountsByUser | internal/infrastructure/repository/accounts.go:68-85 | one distinct new object per row of the user, in the database's order, each holding exactly that row |
| Store.Store.DeleteAccount | internal/infrastructure/repository/accounts.go:102-114 | a fault changes nothing; otherwise exactly that id is removed from the accounts table, and an absent id is no error |
| Store.Store.GetTransaction | internal/infrastructure/repository/transactions.go:90-103 | a fault gives the mapped error, an absent id NotFound, otherwise a new object holding exactly the stored row |
| Store.Store.SaveTransaction | internal/infrastructure/repository/transactions.go:49-75 | a fault changes nothing; otherwise only that row changes, to the upserted row |
| Store.Store.DeleteTransaction | internal/infrastructure/repository/transactions.go:76-89 | a fault changes nothing; otherwise exactly that id is removed, and an absent id is no error |
| Store.Store.FindUser | internal/infrastructure/repository/users.go:59-72 | a fault gives the mapped error, an absent id NotFound, otherwise a new object holding exactly the stored row |
| Store.Store.FindUserByTg | internal/infrastructure/repository/users.go:73-86 | succeeds iff some stored user has that Telegram id, and then returns one of them; otherwise NotFound |
| Store.Store.SaveUser | internal/infrastructure/repository/users.go:38-57 | a fault changes nothing; otherwise only that user's row changes, to the upserted row |
| Dictionary.IndexByLookup | pkg/database/postgres/dictionary.go:120-121 | after indexing by key, a key is present iff it was present or some row has it, and it maps to the last row that has it (or keeps its old row) |
| Dictionary.IndexByCodeKeys | pkg/database/postgres/dictionary.go:120-128 | after indexing by code, a code is present iff it was present or some row has it, and the empty code is never added |
| Dictionary.IndexByCodeLast | pkg/database/postgres/dictionary.go:123-127 | a row with a non-empty code that no later row shares is what that code maps to |
| Dictionary.IndexBy | pkg/database/postgres/dictionary.go:120-121 | each row set under its key in turn, so a later row overwrites an earlier one (`IndexByLookup`) |
| Dictionary.IndexByCode | pkg/database/postgres/dictionary.go:123-127 | each row with a non-empty code set under it in turn (`IndexByCodeKeys`, `IndexByCodeLast`) |
| Dictionary.Since | pkg/database/postgres/dictionary.go:144 | `time.Since(lastLoad)` as a Duration: the difference when it fits in int64, saturated at the bounds, and the largest Duration for a never-loaded cache (Go's zero time) |
| Dictionary.BaseDictionary.IsExpired | pkg/database/postgres/dictionary.go:140-145 | expired iff more than the TTL has passed since the last load, by `Since` |
| Dictionary.ReadAfterFailedFirstLoad | pkg/database/postgres/dictionary.go:43-61 | a cache whose first load failed is expired at once, so the next read reloads it and finds a row the new load brings |
| Dictionary.Lookup | pkg/database/postgres/dictionary.go:185-192 | the lookup succeeds iff the key is indexed, returns its row, and otherwise gives NotFound for the model |
| Dictionary.BaseDictionary.constructor | pkg/database/postgres/dictionary.go:43-61 | the cache starts empty with a 24-hour TTL and reloadable, then applies the options in order, then loads once; success stores the rows and both indexes and stamps the load time; a failed first load leaves the cache empty and never loaded, so it counts as expired at every time for any TTL below the largest Duration |
| Dictionary.BaseDictionary.Load | pkg/database/postgres/dictionary.go:90-138 | a scan failure gives the mapped error and a hook failure its own error, and either changes nothing; otherwise the rows replace the items, are upserted into both indexes, and the load time is now |
| Dictionary.BaseDictionary.ReloadIfNeeded | pkg/database/postgres/dictionary.go:140-153 | `Reloaded`: the cache reloads iff it is expired (more than the TTL since the last load, or never loaded) and reloadable and the load succeeds, and then holds the new rows and indexes stamped now; otherwise (not expired, not reloadable, or a failed reload) nothing changes |
| Dictionary.BaseDictionary.GetByKey | pkg/database/postgres/dictionary.go:179-193 | the state after the call is `Reloaded` (reload iff expired, reloadable and the load succeeds, else unchanged); the result is the row indexed by the key in that state, or NotFound |
| Dictionary.BaseDictionary.GetByCode | pkg/database/postgres/dictionary.go:195-209 | the state after the call is `Reloaded`; the result is the row indexed by the code in that state, or NotFound |
| Dictionary.BaseDictionary.Keys | pkg/database/postgres/dictionary.go:155-168 | the state after the call is `Reloaded`; the result holds every indexed key of that state exactly once |
| Dictionary.BaseDictionary.Values | pkg/database/postgres/dictionary.go:170-177 | the state after the call is `Reloaded`; the result is the rows of that state, those of the last successful load |
| Dictionary.BaseDictionary.Len | pkg/database/postgres/dictionary.go:211-218 | the state after the call is `Reloaded`; the result is the number of rows of that state |
| Dictionary.OptionsDefaults | pkg/database/postgres/dictionary.go:44-54 | with no options the TTL is 24 hours and the cache is reloadable; the last option of a kind wins |
| CategoryDicts.CategoryCode | internal/infrastructure/dictionary/categories.go:33-35 | a category's code is its id in decimal and is never empty, so every row enters the code index |
| CategoryDicts.SubcategoryCode | internal/infrastructure/dictionary/subcategories.go:34-36 | a subcategory's code is its id in decimal and is never empty |
| CategoryDicts.CodeInjective | internal/infrastructure/dictionary/categories.go:33-35 | distinct ids have distinct decimal codes, so the code index never merges two rows |
| CategoryDicts.OwnerOf | internal/infrastructure/dictionary/categories.go:91-94 | a NULL owner reads back as the Nil UUID, and owner text is parsed, an unparseable one also giving Nil |
| CategoryDicts.CategoryToModel | internal/infrastructure/dictionary/categories.go:109-121 | writing a category always writes an owner and an update time |
| CategoryDicts.CategoryRoundTrip | internal/infrastructure/dictionary/categories.go:90-121 | a category written and read back keeps every field the table has; only the slug and plain name, which no column holds, come back empty |
| CategoryDicts.GlobalCategoryGainsOwner | internal/infrastructure/dictionary/categories.go:91-112 | a global row (NULL owner) read and written back is written with the Nil UUID's text as its owner |
| CategoryDicts.SubcategoryToModel | internal/infrastructure/dictionary/subcategories.go:133-145 | writing a subcategory always writes an owner and an update time |
| CategoryDicts.SubcategoryRoundTrip | internal/infrastructure/dictionary/subcategories.go:112-145 | a subcategory written and read back is unchanged |
| CategoryDicts.CategoryToEntity | internal/infrastructure/dictionary/categories.go:90-107 | a row read as an entity: every column kept, the owner by `OwnerOf`, a NULL update time as the zero time (`CategoryRoundTrip`) |
| CategoryDicts.SubcategoryToEntity | internal/infrastructure/dictionary/subcategories.go:112-131 | as `CategoryToEntity`, with the category id kept (`SubcategoryRoundTrip`) |
| CategoryDicts.VisibleTo | internal/infrastructure/dictionary/categories.go:57-59 | a row is kept iff its owner is NULL or its text is the caller's id (`VisibleCategoriesExact`) |
| CategoryDicts.VisibleCategoriesExact | internal/infrastructure/dictionary/categories.go:49-63 | the result holds exactly the entities of the rows that are global or owned by the caller, so every result is global or the caller's |
| CategoryDicts.ByCategoryIsSubsequence | internal/infrastructure/dictionary/subcategories.go:76-94 | restricting to a category only drops rows: every result is also in the unrestricted list and belongs to that category |
| CategoryDicts.WithoutOwned | internal/infrastructure/dictionary/categories.go:74-80 | the scoped delete keeps every global row and leaves no row of the caller's with that id |
| CategoryDicts.CategoriesDict.constructor | internal/infrastructure/dictionary/categories.go:42-47 | the cache is over the table in position order and is loaded once |
| CategoryDicts.CategoriesDict.FindAll | internal/infrastructure/dictionary/categories.go:49-63 | the result is the visible categories of the cache in cache order |
| CategoryDicts.CategoriesDict.FindByID | internal/infrastructure/dictionary/categories.go:65-72 | succeeds iff the id is cached, with that row's entity; otherwise NotFound |
| CategoryDicts.CategoriesDict.Delete | internal/infrastructure/dictionary/categories.go:74-88 | a fault gives the mapped error and keeps the table; otherwise the caller's own row is deleted, never a global one, and the cache reloads, a reload failure being ignored |
| CategoryDicts.SubcategoriesDict.constructor | internal/infrastructure/dictionary/subcategories.go:43-48 | the cache is over the table in position order and is loaded once |
| CategoryDicts.SubcategoriesDict.FindVisible | internal/infrastructure/dictionary/subcategories.go:50-94 | the result is the visible subcategories of the cache (of one category, for `FindByCategoryID`) in cache order |
| CategoryDicts.SubcategoriesDict.FindByID | internal/infrastructure/dictionary/subcategories.go:67-74 | succeeds iff the id is cached, with that row's entity; otherwise NotFound |
| CategoryDicts.SubcategoriesDict.Delete | internal/infrastructure/dictionary/subcategories.go:96-110 | a fault keeps the table; otherwise only the caller's own row goes and the cache reloads |
| TransactionCommands.CreateType | internal/usecase/transactions/command/create_transaction.go:98-102 | the create command maps exactly "income" to a deposit and everything else to a withdrawal |
| TransactionCommands.UpdateType | internal/usecase/transactions/command/update_transaction.go:113-117 | the update command maps exactly "deposit" to a deposit and everything else to a withdrawal |
| TransactionCommands.TypeRulesDisagree | internal/usecase/transactions/command/update_transaction.go:113-117 | the two commands read the type differently: "deposit" makes a withdrawal on create and "income" a withdrawal on update |
| TransactionCommands.PickCategory | internal/usecase/transactions/command/update_transaction.go:93-101 | no category id gives none; an id fails with NotFound iff it is not cached, and otherwise gives the cached category |
| TransactionCommands.PickSubcategory | internal/usecase/transactions/command/update_transaction.go:103-111 | the same for a subcategory id |
| TransactionCommands.CreateTransaction | internal/usecase/transactions/command/create_transaction.go:58-165 | bad ids are validation errors with the source's messages; success holds iff every input and database call goes through; then the new transaction holds what was commanded and is posted to its account; any failure stores nothing; consistency is kept |
| TransactionCommands.NewPostingFields | internal/usecase/transactions/command/create_transaction.go:119-138 | the transaction built inside the scope has the fresh id, the caller, the account, the mapped type, the note, the category, the commanded or current time, and the amount if the setter took it |
| TransactionCommands.PostInScope | internal/usecase/transactions/command/create_transaction.go:112-162 | the scope succeeds iff begin, the account read, the two saves and commit go through; failure restores the tables |
| TransactionCommands.PostNew | internal/usecase/transactions/command/create_transaction.go:113-158 | a missing account is NotFound; success iff the account exists and the saves go through, with the drafted transaction |
| TransactionCommands.Post | internal/usecase/transactions/command/create_transaction.go:140-156 | success iff both saves go through, leaving exactly the posted tables |
| TransactionCommands.Drafted | internal/usecase/transactions/command/create_transaction.go:119-138 | drafting fails iff the user or account id is Nil, and otherwise is the created, categorised, priced and dated transaction |
| TransactionCommands.UpdateTransaction | internal/usecase/transactions/command/update_transaction.go:65-202 | bad ids are validation errors; a missing or foreign transaction is NotFound; success means the caller's own transaction is replaced by its updated state and its account is re-posted; any failure stores nothing; consistency is kept |
| TransactionCommands.RepostInScope | internal/usecase/transactions/command/update_transaction.go:127-199 | a missing or foreign transaction is NotFound; success re-posts the caller's own transaction; failure restores the tables |
| TransactionCommands.Repost | internal/usecase/transactions/command/update_transaction.go:128-195 | a missing or foreign transaction is NotFound and changes nothing; success replaces it by its updated state and re-posts its account |
| TransactionCommands.Rewrite | internal/usecase/transactions/command/update_transaction.go:150-193 | on success the transaction keeps its id and account, its new state is what `Update` computes, and the tables are the re-posted ones |
| TransactionCommands.DeleteTransaction | internal/usecase/transactions/command/delete_transaction.go:49-115 | bad ids are validation errors; a missing or foreign transaction is NotFound; success takes the effect off its account and deletes the row; any failure stores nothing; consistency is kept |
| TransactionCommands.Unpost | internal/usecase/transactions/command/delete_transaction.go:69-107 | a missing or foreign transaction is NotFound and changes nothing; success leaves exactly the un-posted tables |
| AccountsService.Rows | internal/entities/accounts.go:119 | the listed rows are the stored rows of the listed ids, in the database's order |
| AccountsService.Unflagged | internal/entities/accounts.go:125-127 | the loop clears the default flag of every account but the chosen one, and changes nothing else that matters to the ledger |
| AccountsService.ClearedStep | internal/entities/accounts.go:124-133 | one more turn of the loop saves exactly one more cleared row |
| AccountsService.FirstFailing | internal/entities/accounts.go:129-132 | the loop stops at the first listed account whose save fails, having saved every account before it |
| AccountsService.ClearedKeys | internal/entities/accounts.go:124-133 | the loop adds a row for each account it saves and removes none |
| AccountsService.ClearedUntouched | internal/entities/accounts.go:124-133 | a row the loop does not save keeps its stored value |
| AccountsService.ClearedSaved | internal/entities/accounts.go:124-133 | every row the loop saves keeps its owner and, unless it is the chosen account, is no longer default |
| AccountsService.DefaultIsExclusive | internal/entities/accounts.go:118-142 | when the list covers all of the user's accounts and every save goes through, the chosen account is the user's one and only default |
| AccountsService.MakeDefaultExclusive | internal/entities/accounts.go:118-142 | the same, for the rows the repository lists for the user |
| AccountsService.MakeDefault | internal/entities/accounts.go:118-142 | a list failure changes nothing; a failing save returns its error and leaves the saves before it in place; full success leaves the cleared rows and the chosen account saved as default; users and transactions are untouched |
| AccountsService.ClearThenSet | internal/entities/accounts.go:124-141 | the loop then the final save, with the same partial-failure outcome |
| AccountsService.SaveCleared | internal/entities/accounts.go:124-133 | the loop saves the listed accounts in order, cleared unless chosen, and stops at the first failing save |
| AccountsService.SaveOne | internal/entities/accounts.go:125-132 | one turn clears the flag unless the account is the chosen one, then upserts it or returns the mapped error with nothing saved |
| AccountCommands.Opened | internal/usecase/accounts/command/create_account.go:77-83 | the new account is the caller's, named and flagged as asked, with the balance in the caller's currency's minor units, or 0 when the balance is negative; it fits in int64 |
| AccountCommands.OpeningDepositMatchesBalance | internal/usecase/accounts/command/create_account.go:91-119 | for a positive balance, the opening deposit is refused iff the caller has no currency; otherwise it is a new deposit in Other on the new account whose amount is the account's balance, so the balance is exactly its effect |
| AccountCommands.OpeningKeepsConsistent | internal/usecase/accounts/command/create_account.go:85-126 | from consistent tables, with an account id and a transaction id not yet stored (and no transaction referring to that account), and an opened balance that is at least 0 (it fits in int64 by `Opened`) whose deposit, when positive, is not refused: the account saved together with its opening deposit (or with a zero balance and none) keeps every balance equal to the sum of its postings |
| AccountCommands.UnexplainedBalance | internal/usecase/accounts/command/create_account.go:85-96 | an account saved with a non-zero balance and no deposit breaks the ledger: no posting explains its balance |
| AccountCommands.NoCurrencyStopsHalfWay | internal/usecase/accounts/command/create_account.go:82-119 | a caller without a currency opening an account with 10.00 gets an account of 1000 minor units, and then the deposit is refused with "currency code must not be empty" |
| AccountCommands.CreateAccount | internal/usecase/accounts/command/create_account.go:50-129 | as written: a bad user id is a validation error; before the account save any failure stores nothing; after it, a zero balance stores the account alone, and a positive one succeeds iff Other, the deposit and its save go through, a failure there leaving the account stored without its deposit |
| AccountCommands.CreateAccountAtomic | internal/usecase/accounts/command/create_account.go:50-129 | corrected: the same steps in one `WithTx`, so any failure stores nothing and success stores the account as commanded with its deposit; when the tables were consistent, the account id and transaction id were not yet stored, no transaction referred to the account, and the balance is at least 0, the ledger stays consistent |
| AccountCommands.Open | internal/usecase/accounts/command/create_account.go:77-126 | a Nil owner or a failed account save stores nothing; after the save the outcome is as for `CreateAccount` |
| AccountCommands.Drafted | internal/usecase/accounts/command/create_account.go:77-83 | drafting fails iff the owner is Nil, and otherwise gives the opened account |
| AccountCommands.SaveOpening | internal/usecase/accounts/command/create_account.go:91-126 | a failed Other lookup returns its error; the deposit is saved iff it can be built and the save goes through; a failure stores nothing further |
| AccountCommands.Patched | internal/usecase/accounts/command/update_account.go:84-90 | only the fields given change, the balance never, and the update time only when a field is given |
| AccountCommands.Patch | internal/usecase/accounts/command/update_account.go:84-90 | the loaded account becomes its patched state |
| AccountCommands.UpdateAccount | internal/usecase/accounts/command/update_account.go:44-99 | bad ids are validation errors; success iff the user and account exist and every call goes through; then only that account changes, to its patched state, whoever its owner; consistency is kept |
| AccountCommands.DeleteAccount | internal/usecase/accounts/command/delete_account.go:42-89 | bad ids are validation errors; success iff the user and account exist and every call goes through; then exactly that account row is gone, whoever its owner, and its transactions stay; consistency is kept |
| UserCommands.Registered | internal/usecase/users/command/auth_telegram.go:60 | a user registered from Telegram has the drawn id, the Telegram id and names given, and no language, currency or time zone yet |
| UserCommands.AuthTelegram | internal/usecase/users/command/auth_telegram.go:41-73 | a lookup error that is not not-found is returned; an existing user is returned as stored and nothing is written; otherwise a zero Telegram id is refused, and a new user is built and saved, or the save error returned with nothing stored |
| UserCommands.SecondAuthFindsFirst | internal/usecase/users/command/auth_telegram.go:50-72 | find-or-create is idempotent: once a new Telegram id is registered, the next sign-in finds exactly the registered row |
| UserCommands.Patched | internal/usecase/users/command/update.go:67-73 | only the codes given change, and the update time only when one is given |
| UserCommands.Update | internal/usecase/users/command/update.go:40-82 | a bad id is a validation error; success iff the user exists and the save goes through, leaving only that user changed, to its patched state (saved even when nothing was patched) |
| ApiErr.FirstMatchIsEarliest | internal/delivery/api/apierr/registry.go:147-156 | a mapping is found iff some registered matcher accepts the error, and it is the builder's result for the earliest one that does |
| ApiErr.AppendNeverShadows | internal/delivery/api/apierr/registry.go:140-144 | registering at the end never changes the answer for an error an earlier item accepts, and otherwise the new item decides |
| ApiErr.Leaf | internal/delivery/api/apierr/registry.go:32 | the end of a `%w` chain is not itself wrapped |
| ApiErr.GoIsAtLeaf | internal/delivery/api/apierr/registry.go:32 | `errors.Is` against an unwrapped target answers at the end of the chain: equality for comparable targets, or the leaf's own `Is` method |
| ApiErr.DefaultTable | internal/delivery/api/apierr/registry.go:28-137 | `NewRegistry` registers nine rows |
| ApiErr.RowOf | internal/delivery/api/apierr/registry.go:32-134 | every error belongs to at most one of the nine default rows |
| ApiErr.RowMatches | internal/delivery/api/apierr/registry.go:32-134 | row j of the default table accepts exactly the errors that belong to row j |
| ApiErr.DefaultTableByKind | internal/delivery/api/apierr/registry.go:28-137 | the default table maps by the kind of the error at the end of the chain: NotFound 404, Conflict 409, NoChanges 400, the two token sentinels 401 "token expired", InvalidToken 401, Validation 400, PermissionDenied 403, ErrHttp its own status; anything else is unmatched |
| ApiErr.BuilderAgrees | internal/delivery/api/apierr/registry.go:32-134 | the builder of the row an error belongs to builds the mapping that kind is given |
| ApiErr.WrappedHttpIsInternal | internal/delivery/api/apierr/registry.go:112-134 | a bare `*ErrHttp` keeps its status, message and body under EXTERNAL_SERVICE_ERROR, but wrapped with `%w` it is no longer a `*ErrHttp` and maps to 500 INTERNAL_ERROR |
| ApiErr.Registry.constructor | internal/delivery/api/apierr/registry.go:28-137 | a new registry holds the default table, in order |
| ApiErr.Registry.RegisterMatch | internal/delivery/api/apierr/registry.go:140-144 | the pair goes to the end of the table |
| ApiErr.Registry.FindMapping | internal/delivery/api/apierr/registry.go:147-156 | ok iff some matcher accepts the error, and then the first match's mapping; otherwise the zero mapping and false |
| ApiErr.Base | internal/delivery/api/apierr/handler.go:17-34 | no match gives 500, INTERNAL_ERROR, "Something went wrong!"; a match gives its status and code, and its message or else the error's text; the mapping's details are never copied |
| ApiErr.Apply | internal/delivery/api/apierr/handler.go:48-73 | each option changes only its own field; `WithDetail` adds a key to map details or replaces any other details with a one-entry map |
| ApiErr.LastOptionWins | internal/delivery/api/apierr/handler.go:36-38 | options apply in order, so for status, message and code the last option that sets the field wins |
| ApiErr.Handle | internal/delivery/api/apierr/handler.go:16-41 | the status and body are the base response for the first matching mapping, with the options applied in order |
| ApiErr.UnmatchedIsInternal | internal/delivery/api/apierr/handler.go:17-34 | a nil or unmatched error with no options answers 500, INTERNAL_ERROR, "Something went wrong!" |
| ApiErr.NotFoundResponse | internal/delivery/api/apierr/handler.go:24-33 | an ErrNotFound anywhere down the chain answers 404 NOT_FOUND with the error's own text |
| ApiErr.ExpiredTokenResponse | internal/delivery/api/apierr/registry.go:59-70 | an expired token answers 401 INVALID_TOKEN "token expired", and the details its row builds are dropped |
| Retry.Trunc | pkg/retry/retry.go:39-42 | Go's float-to-integer conversion truncates toward zero |
| Retry.Min | pkg/retry/retry.go:42 | the smaller of the two |
| Retry.NextInterval | pkg/retry/retry.go:38-42 | the next interval never exceeds `MaxInterval`; as written it multiplies twice (by the truncated multiplier, then by the multiplier), as intended once |
| Retry.Retry | pkg/retry/retry.go:24-46 | takes the growth as a parameter, as written or corrected: the loop returns exactly what `Runs` gives for that growth, calling `fn` once per attempt and recording each wait |
| Retry.Do | pkg/retry/retry.go:48-50 | as written: `Retry` with the default configuration (three attempts, first interval 100ms, multiplier 2, cap one second) and the interval grown as the source writes it, so the waits are 100ms, 400ms, 1s (`DefaultWaitsAsWritten`) |
| Retry.LoopShape | pkg/retry/retry.go:29-43 | the calls stay within the attempts, the waits only grow at the end, the next wait is the current interval, and every later one is capped by `MaxInterval` |
| Retry.CallsAndWaitsBounded | pkg/retry/retry.go:27-43 | `fn` is called at most `MaxAttampts` times (never when that is not positive), the first wait is `RetyrInterval` and every later wait at most `MaxInterval` |
| Retry.NoAttempts | pkg/retry/retry.go:25-29 | with no attempts allowed nothing is called, and the zero value comes back with a nil error (line 45) |
| Retry.LoopOutcome | pkg/retry/retry.go:29-45 | after failures with the context open: a success is returned at once, a finished context returns its error with the last answer, and failures to the end return the last answer and its error |
| Retry.FirstSuccessReturned | pkg/retry/retry.go:30-33 | the first success is returned at once with a nil error, after exactly as many calls as it took |
| Retry.ContextStopsRun | pkg/retry/retry.go:35-37 | a context that finishes during a wait ends the run with `ctx.Err()` and the last answer, and nothing more is called |
| Retry.AllFailReturnsLast | pkg/retry/retry.go:29-45 | when every attempt fails and the context stays open, the last answer and its error come back after `MaxAttampts` calls |
| Retry.DefaultWaitsAsWritten | pkg/retry/retry.go:38-42 | as written, the default configuration with three failures waits 100ms, 400ms and 1s: the interval quadruples |
| Retry.DefaultWaitsDouble | pkg/retry/retry.go:15-22 | as intended, the default configuration with three failures waits 100ms, 200ms and 400ms |
| Retry.IntendedGrowth | pkg/retry/retry.go:29-43 | with single growth, every wait is the previous one times the multiplier, truncated and capped |
| Retry.RunGrowsOnce | pkg/retry/retry.go:24-46 | corrected: over a whole run each wait is the previous one grown once |
| Retry.Loop | pkg/retry/retry.go:29-45 | the loop from a given attempt: success returns at once, a done context returns its error, otherwise wait and grow; after the last attempt the last answer (`LoopShape`, `LoopOutcome`) |
| Retry.Runs | pkg/retry/retry.go:24-46 | a whole run from the first attempt with the configured interval and Go's zero values (`FirstSuccessReturned`, `ContextStopsRun`, `AllFailReturnsLast`, `NoAttempts`) |
| Stopwatch.LastOptionWins | pkg/stopwatch/stopwatch.go:23-31 | the options apply in order over the defaults (start now, log, no callbacks), so the last option setting a field wins and a field no option sets keeps its default |
| Stopwatch.CallEach | pkg/stopwatch/stopwatch.go:96-98 | one call per callback, in order, each with the same elapsed time |
| Stopwatch.Stopwatch.Start | pkg/stopwatch/stopwatch.go:22-44 | a new stopwatch is running, with the configured start time, logging flag and callbacks, and nothing elapsed |
| Stopwatch.Stopwatch.Elapsed | pkg/stopwatch/stopwatch.go:46-54 | the frozen time once stopped, otherwise the time since the start |
| Stopwatch.Stopwatch.Stop | pkg/stopwatch/stopwatch.go:71-101 | the first stop freezes and returns the time since the start and fires every callback registered by then with it; a later stop returns the frozen time and fires nothing; earlier calls are kept |
| Stopwatch.Stopwatch.Reset | pkg/stopwatch/stopwatch.go:62-69 | running again from now with nothing elapsed; the callbacks stay |
| Stopwatch.Stopwatch.IsRunning | pkg/stopwatch/stopwatch.go:103-107 | running iff not stopped |
| Stopwatch.Stopwatch.AddCallback | pkg/stopwatch/stopwatch.go:109-113 | the callback goes to the end of the list and nothing fires |
| Stopwatch.StartedIsRunning | pkg/stopwatch/stopwatch.go:22-54 | a stopwatch just started is running and reports the time since its start |
| Stopwatch.FirstStop | pkg/stopwatch/stopwatch.go:80-100 | the first stop records the time since the start, leaves the stopwatch stopped, calls each callback once in order with that time, and the elapsed time then stays put |
| Stopwatch.StopAgainIsSilent | pkg/stopwatch/stopwatch.go:74-78 | stopping again returns the frozen time, changes nothing and calls nothing |
| Stopwatch.ResetRunsAgain | pkg/stopwatch/stopwatch.go:62-69 | after a reset the stopwatch runs from now with nothing elapsed and the same callbacks |
| Stopwatch.CallbacksTakenAtStop | pkg/stopwatch/stopwatch.go:84-85 | a callback added (lines 109-113) after a stop is not called by a later stop, but is called, last, by the first stop after a reset |
| Stopwatch.ElapsedAt | pkg/stopwatch/stopwatch.go:46-54 | the frozen time once stopped, otherwise the time since the start (`Stopwatch.Elapsed` ensures it) |
| Stopwatch.StopAt | pkg/stopwatch/stopwatch.go:71-101 | `Stop`: the first stop freezes the time since the start and calls every callback with it; a later one returns the frozen time and calls nothing (`FirstStop`, `StopAgainIsSilent`) |
| Stopwatch.ResetAt | pkg/stopwatch/stopwatch.go:62-69 | `Reset`: running from now with nothing elapsed, callbacks kept (`ResetRunsAgain`) |
| Kafka.LastHeaderWins | pkg/kafka_consumer/consumer.go:208-215 | the last header with a key gives its value, and with no such header the value is empty |
| Kafka.TraceAndSpanId | pkg/kafka_consumer/consumer.go:203-226 | the last `trace_id` and `span_id` headers; a missing or empty trace id is reported first, then a missing or empty span id; success iff both are non-empty |
| Kafka.HeaderMapHoldsLast | pkg/kafka_consumer/consumer.go:298-301 | the header map holds exactly the header keys, each with the value of its last header |
| Kafka.ToEvent | pkg/kafka_consumer/consumer.go:296-322 | the event carries the derived id, the topic, the payload and the header map |
| Kafka.IdChoice | pkg/kafka_consumer/consumer.go:304-315 | the id is a non-empty key, else the last `event-id` header, else `x-event-id`, else `id`, else "topic:partition:offset" |
| Kafka.EmptyHeaderStillChosen | pkg/kafka_consumer/consumer.go:306-311 | an `event-id` header that is present with an empty value is still the id, and the fallback is not used |
| Kafka.HeaderMap | pkg/kafka_consumer/consumer.go:298-301 | the headers set in turn, a later one overwriting an earlier (`HeaderMapHoldsLast`) |
| Kafka.EventId | pkg/kafka_consumer/consumer.go:304-315 | the key when non-empty, else the first present of `event-id`, `x-event-id`, `id`, else topic:partition:offset (`IdChoice`) |
| Kafka.Consumer.New | pkg/kafka_consumer/consumer.go:38-61 | a new consumer has no subscriptions |
| Kafka.Consumer.Subscribe | pkg/kafka_consumer/consumer.go:63-65 | the subscription goes after those made before it |
| Otlp.Normalised | pkg/otlp/client.go:122 | each name is normalised, one for one |
| Otlp.BuildPropagator | pkg/otlp/client.go:117-146 | the loop composes exactly the propagators the scan of the normalised names chooses, or trace context and baggage when it chooses none |
| Otlp.Visit | pkg/otlp/client.go:123-139 | one turn skips an empty or already-seen name, otherwise marks it seen and appends its propagator when it is known |
| Otlp.ScanSeen | pkg/otlp/client.go:123-126 | the seen set holds exactly the non-empty normalised names |
| Otlp.ScanPositions | pkg/otlp/client.go:121-140 | each chosen propagator is named at its position, no earlier name stands for it, and the positions increase: first-occurrence order |
| Otlp.ScanComplete | pkg/otlp/client.go:128-139 | every propagator some name stands for is chosen: unknown names are ignored, known ones never dropped |
| Otlp.NoDuplicates | pkg/otlp/client.go:121-140 | no propagator is chosen twice |
| Otlp.DefaultWhenNoneKnown | pkg/otlp/client.go:142-144 | nothing is chosen, so the default is composed, exactly when no name stands for a known propagator |
| Otlp.ScanExample | pkg/otlp/client.go:117-146 | "tracecontext, b3, baggage, tracecontext, jaeger" gives trace context, B3, baggage |
| Otlp.Norm | pkg/otlp/client.go:122 | a name lower-cased, then trimmed |
| Otlp.Known | pkg/otlp/client.go:128-139 | tracecontext, baggage, b3 and b3multi stand for their propagators; any other name for none |
| Otlp.Scan | pkg/otlp/client.go:121-140 | the loop over the names: the propagators chosen, their positions and the names seen (`ScanSeen`, `ScanPositions`, `ScanComplete`, `NoDuplicates`) |
| Otlp.EndpointFor | pkg/otlp/client.go:101-115 | the URL form is used iff the endpoint starts with "http://" or "https://", and the endpoint is passed as it is |
| Otlp.ParseRatio | pkg/otlp/client.go:176-186 | the default for an empty or unparseable argument, otherwise the parsed value |
| Otlp.Clamp01 | pkg/otlp/client.go:188-197 | the result is in [0, 1], is the identity on [0, 1], and clamps below to 0 and above to 1 |
| Otlp.BuildSampler | pkg/otlp/client.go:148-174 | ratios are always fractions; an unknown type gives parent-based never-sample; the sampler is parent-based iff the type is one of the parent-based names or unknown |
| Otlp.RatioFromArgument | pkg/otlp/client.go:149-168 | the ratio samplers take a parsed fraction as it is, sample everything for an empty or unparseable argument, and clamp other values to the nearest bound |
| RepoMappers.NullableRoundTrip | internal/infrastructure/repository/users.go:113-115 | writing a value as nullable and reading it back gives the value; NULL is written exactly for the zero value; a read column written back is unchanged exactly when it is not a stored zero value (users.go:135-137) |
| RepoMappers.AccountRoundTrip | internal/infrastructure/repository/accounts.go:116-152 | every account survives ToModel then ToEntity; nil maps to nil both ways; a zero update time is stored as NULL; a row survives ToEntity then ToModel iff both ids are canonical and updated_at is not a stored zero time; a malformed id reads as the nil UUID |
| RepoMappers.SumBalancesSplit | internal/infrastructure/repository/accounts.go:93 | the SUM over two runs of rows is the sum of their sums, so the total does not depend on how the rows are split |
| RepoMappers.SumBalancesOwnOnly | internal/infrastructure/repository/accounts.go:93-94 | rows of other users add nothing: a user with no rows has total 0, as COALESCE gives |
| RepoMappers.GetTotalBalance | internal/infrastructure/repository/accounts.go:87-100 | a driver failure is returned as the repository error of the accounts model; otherwise the result is Ok, and 0 for a user with no accounts |
| RepoMappers.TxRoundTrip | internal/infrastructure/repository/transactions.go:318-391 | every scalar field survives ToModel then ToEntity; the category and subcategory come back as what the lookups find under their ids, so the whole transaction comes back when the lookups find them and a failed lookup leaves the link nil; zero original amount, empty original currency, zero rate and zero times are stored as NULL, and only they |
| RepoMappers.TxNilAndMalformed | internal/infrastructure/repository/transactions.go:351-358 | nil maps to nil both ways, and a malformed id, user id or account id reads as the nil UUID |
| RepoMappers.Selected | internal/infrastructure/repository/transactions.go:108-114 | every selected row is one of the user's rows and, when types are given, of one of those types; every such row is selected |
| RepoMappers.Skip | internal/infrastructure/repository/transactions.go:119-121 | the rows skipped never exceed the rows there are; only a positive offset skips |
| RepoMappers.Page | internal/infrastructure/repository/transactions.go:116-121 | with no positive limit or offset the rows are returned whole; otherwise the page holds the rows from the offset on, in order, and at most `limit` of them when the limit is positive |
| RepoMappers.PagesFollowOn | internal/infrastructure/repository/transactions.go:116-121 | for a positive limit, page k followed by page k+1 is the page of twice the limit at offset k*limit: consecutive pages neither overlap nor leave gaps |
| RepoMappers.ReadTxs | internal/infrastructure/repository/transactions.go:128-131 | one transaction per row, in row order, each the row read with ToEntity |
| RepoMappers.GetByUserID | internal/infrastructure/repository/transactions.go:104-138 | a failed select or a failed count gives the repository error of the transactions model, and only they do; otherwise the page of selected rows read with ToEntity, and the number of all selected rows |
| RepoMappers.TotalsMapHoldsLast | internal/infrastructure/repository/transactions.go:214-219 | the totals map holds exactly the category ids of the results, each with the total of the last row for it |
| RepoMappers.GetTotalsByCategories | internal/infrastructure/repository/transactions.go:185-222 | a driver failure gives the repository error; otherwise the category ids in result order, one per result, and the totals map of the results |
| RepoMappers.GroupedTotals | internal/infrastructure/repository/transactions.go:199-219 | when the query groups by category, every listed category maps to its own row's total and the map holds no other key |
| RepoMappers.UserRoundTrip | internal/infrastructure/repository/users.go:105-145 | a user survives ToModel then ToEntity except for the time zone, which comes back empty (so exactly the users with an empty time zone survive whole); empty names are stored as NULL and NULL names read as ""; nil maps to nil; a malformed id reads as the nil UUID |
| RepoMappers.FindAll | internal/infrastructure/repository/users.go:87-103 | a driver failure gives the repository error of the users model; otherwise one user per row, in row order, each the row read with ToEntity |
| RepoMappers.SaveAccountColumns | internal/infrastructure/repository/accounts.go:36-53 | saving over an existing row stores the account with the old creation time; a new row is stored as it is |
| RepoMappers.SaveTxColumns | internal/infrastructure/repository/transactions.go:49-74 | saving over an existing row stores the transaction with the old creation time and the old subcategory, so a changed subcategory is lost; a new row is stored as it is |
| RepoMappers.SaveUserColumns | internal/infrastructure/repository/users.go:38-57 | saving over an existing row stores the user with the old creation time; the time zone is always stored empty |
| RepoMappers.AccountToModel | internal/infrastructure/repository/accounts.go:116-132 | nil to nil; the ids as text, a zero update time as NULL (`AccountRoundTrip`) |
| RepoMappers.AccountToEntity | internal/infrastructure/repository/accounts.go:134-153 | nil to nil; a malformed id reads as the nil UUID, NULL update time as the zero time (`AccountRoundTrip`) |
| RepoMappers.TxToModel | internal/infrastructure/repository/transactions.go:318-349 | nil to nil; the links as their ids, zero optional values as NULL (`TxRoundTrip`) |
| RepoMappers.TxToEntity | internal/infrastructure/repository/transactions.go:351-391 | nil to nil; the links looked up by id, a failed lookup leaving them nil; malformed ids as the nil UUID (`TxRoundTrip`, `TxNilAndMalformed`) |
| RepoMappers.UserToModel | internal/infrastructure/repository/users.go:105-123 | nil to nil; empty names as NULL, no time zone column (`UserRoundTrip`) |
| RepoMappers.UserToEntity | internal/infrastructure/repository/users.go:125-145 | nil to nil; NULL names as "", a malformed id as the nil UUID, the time zone empty (`UserRoundTrip`) |
| RepoMappers.SumBalances | internal/infrastructure/repository/accounts.go:93 | `COALESCE(SUM(balance), 0)` over the user's rows (`SumBalancesSplit`, `SumBalancesOwnOnly`) |
| RepoMappers.TotalsMap | internal/infrastructure/repository/transactions.go:214-219 | the results set in turn by category id, a later row overwriting an earlier (`TotalsMapHoldsLast`) |
| Reminder.OccursIffCounted | internal/usecase/notifications/record_reminder_calculate.go:76-77 | a key has a positive count exactly when it occurs among the counted keys |
| Reminder.TallyStep | internal/usecase/notifications/record_reminder_calculate.go:76-77 | incrementing a key's bucket (absent buckets start at 0) turns a tally of the keys so far into a tally of one key more |
| Reminder.HoursOf | internal/usecase/notifications/record_reminder_calculate.go:76 | one hour per transaction, the hour of its creation time, in order |
| Reminder.NamesOf | internal/usecase/notifications/record_reminder_calculate.go:77 | one name per transaction, its category's name for every transaction with a category |
| Reminder.CountPeaks | internal/usecase/notifications/record_reminder_calculate.go:70-78 | the loop stops on a nil category iff some transaction has none; otherwise the two maps hold exactly the hours and category names that occur, each with its number of occurrences |
| Reminder.CountOfNone | internal/usecase/notifications/record_reminder_calculate.go:70-71 | before any transaction every bucket is empty, so the counts of any keys sum to 0 |
| Reminder.CountOfSnoc | internal/usecase/notifications/record_reminder_calculate.go:73-78 | counting one more key adds to the summed counts exactly the number of times that key is among the summed keys |
| Reminder.OnceInDistinct | internal/usecase/notifications/record_reminder_calculate.go:85-87 | a key of the map appears once among distinct listed keys |
| Reminder.CountsSumToTotal | internal/usecase/notifications/record_reminder_calculate.go:70-87 | over distinct keys covering every counted key, the counts add up to the number of keys counted: each counted key lands in exactly one bucket |
| Reminder.Buckets | internal/usecase/notifications/record_reminder_calculate.go:84-87 | the slice lists every entry of the count map once, with its count, and nothing else, in whatever order the map is ranged |
| Reminder.InsertByCount | internal/usecase/notifications/record_reminder_calculate.go:88-90 | inserting an entry gives a sequence one longer holding the old entries and the new one (as a multiset) |
| Reminder.InsertMembers | internal/usecase/notifications/record_reminder_calculate.go:88-90 | the inserted sequence holds exactly the old entries and the new one |
| Reminder.InsertKeepsOrder | internal/usecase/notifications/record_reminder_calculate.go:88-90 | inserting into a sequence ordered by non-increasing count keeps it so ordered |
| Reminder.InsertKeepsDistinct | internal/usecase/notifications/record_reminder_calculate.go:88-90 | inserting an entry with a new key into entries with distinct keys keeps the keys distinct |
| Reminder.SortByCount | internal/usecase/notifications/record_reminder_calculate.go:88-90 | the sort by count, largest first, gives a permutation of the entries with non-increasing counts, and keeps distinct keys distinct |
| Reminder.SortKeepsKeys | internal/usecase/notifications/record_reminder_calculate.go:114-116 | a permutation of all but the last of entries with distinct keys has distinct keys and lacks the last key |
| Reminder.PermutedListing | internal/usecase/notifications/record_reminder_calculate.go:84-90 | a permutation with distinct keys of a listing of the count map still lists the map: sorting loses and adds no entry |
| Reminder.TopKeys | internal/usecase/notifications/record_reminder_calculate.go:96-102 | the keys of the first n entries in order, or of all of them when there are fewer than n |
| Reminder.TopOfRanking | internal/usecase/notifications/record_reminder_calculate.go:84-102 | the first n keys of a count-sorted listing of the tally are at most n distinct occurring keys, all of them when fewer than n occur, in non-increasing frequency, none less frequent than a key left out |
| Reminder.RankTop | internal/usecase/notifications/record_reminder_calculate.go:110-125 | counting, listing, sorting and cutting yield a valid choice of the n most frequent keys, empty exactly when nothing was counted |
| Reminder.JoinContainsEach | internal/usecase/notifications/record_reminder_calculate.go:168 | the joined list of names contains each name |
| Reminder.ContainsInMiddle | internal/usecase/notifications/record_reminder_calculate.go:166-170 | text appended around a piece keeps every part of the piece |
| Reminder.TemplatesMarkTheClause | internal/usecase/notifications/record_reminder_calculate.go:165-189 | every template's category clause begins with non-empty text, so its presence changes the message |
| Reminder.TextNamesCategories | internal/usecase/notifications/record_reminder_calculate.go:127-135 | the text is the bare opening and closing of the chosen template iff there are no top categories, and otherwise names every top category |
| Reminder.Render | internal/usecase/notifications/record_reminder_calculate.go:165-189 | a template's text: the opening, the category clause only when there are top categories, the closing |
| Reminder.ReminderText | internal/usecase/notifications/record_reminder_calculate.go:127-135 | the switch on the random choice: template 1, 2 or 3, and "" for a value with no case (`TextNamesCategories`) |
| Reminder.NextRunDelay | internal/usecase/notifications/record_reminder_calculate.go:142-149 | the delay is at least 0 and less than a day, and lands on the hour h:00:00 |
| Reminder.Accepted | internal/usecase/notifications/record_reminder_calculate.go:157-159 | the queue holds at most as many tasks as it was handed, and only tasks it was handed |
| Reminder.NoFailureAcceptsAll | internal/usecase/notifications/record_reminder_calculate.go:157-159 | when no enqueue fails, every task is accepted, in order |
| Reminder.Schedule | internal/usecase/notifications/record_reminder_calculate.go:137-160 | one send task per peak hour, in order, on the medium queue, carrying the user id and the text, delayed until that hour; the accepted tasks are those whose enqueue did not fail |
| Reminder.PeakHours | internal/usecase/notifications/record_reminder_calculate.go:92-103 | [12] when there are no transactions, else a valid choice of the three busiest hours; all are hours of the day |
| Reminder.RecordReminderCalculate | internal/usecase/notifications/record_reminder_calculate.go:43-163 | a malformed id is a validation error on user_id; a failed read is returned as it is; a transaction without a category crashes the run, and only that; otherwise the peak hours and top three categories are valid choices, and one task per peak hour carries the chosen text and the delay to that hour |

## Left out

- HTTP delivery: the gin handlers, router, middleware and `apierr/utils.go` helpers (`BadRequest` and the like) are framework glue. The response the handler computes is modelled by `ApiErr.Handle`.
- LLM, OCR and voice parsing, the network clients and the gRPC layer are calls into external services.
- Read-only query use cases are thin pass-throughs to the repositories that the model already covers.
- Logging, tracing spans (`otlp/tracing.go`, `InitTracer`, the exporters), configuration and wiring are left out. Log calls are dropped, and a failure that is only logged is a parameter.
- Concurrency: the mutexes of the dictionary, registry and stopwatch are left out, and so are the Kafka consumer's goroutines and `WaitGroup`. Operations run one at a time, and stopwatch callbacks are recorded as the list `fired`.
- Kafka: `Run`, the worker loop, `Stop`, `buildDialer` and the readers are I/O and are left out. Only event-id derivation, the header map and `Subscribe` are modelled.
- Row-level locking (`FOR UPDATE`) and SQL text are left out. `GetByIDForUpdate`, which the accounts repository does not implement, is modelled as the plain read. WHERE filters are `RepoMappers.Selected`, `COALESCE(SUM)` is `RepoMappers.SumBalances`, and the database's row order is the order of the `rows` parameter.
- Floating point: `math.Round`, `math.Pow10` and fx multiplication are modelled with exact reals, so float rounding error is not captured.
- Money.MinorFromMajor: an out-of-range float-to-`int64` conversion gives the smallest `int64`. Go leaves this implementation-defined, and this is what amd64 gives.
- Retry.Retry: the waits are recorded, not performed. The context is the number of attempts after which it is done (`doneAfter`), and `Duration` overflow is not modelled.
- Stopwatch.Stopwatch.Stop: `ElapsedWithMessage` and the log lines only log, so they are left out. Time is integer nanoseconds passed in as `now`.
- Dictionary.BaseDictionary.Load: the one-second `time.Sleep`, the stopwatch around the load, and `relationships`/`orderBy` are left out. The last two only shape the query, and the rows the query returns are a parameter.
- Otlp.RatioFromArgument: `strconv.ParseFloat` is a parameter and NaN is not modelled. `strings.ToLower` is ASCII-only here. `WithLogger` and the `log.Printf` warnings are left out.
- Times: time zones and daylight-saving shifts are left out. Times are wall-clock civil times with second resolution, and `IsToday`/`IsTomorrow` read the real clock, so they are left out. `NewAccount` and `NewUser` read the clock twice, for `CreatedAt` and `UpdatedAt`; the model gives both the same `now`, so the two never differ.
- Reminder.RecordReminderCalculate: the random text choice and the clock are parameters, and `json.Marshal` of the payload is taken never to fail. A transaction without a category is modelled as the `Crashed` outcome, since Go dereferences a nil pointer there. Go's `sort.Slice` is not stable, so the model's tie order is one of the orders it may produce.
- ApiErr.Apply: the map aliasing of `WithDetail` and the replacement of invalid UTF-8 are left out. The `ErrInvalidToken` target is modelled as the plain error with an empty message.
- Uuids.Parse: `uuid.Parse` also accepts the upper-case form, `{…}` braces, the `urn:uuid:` prefix and 32 hex digits without hyphens. The model treats all of these as `Malformed`, so a command given such an id answers with a validation error where Go proceeds.
- PgErrors.IsConnectionError, PgErrors.IsNoRows: `strings.ToLower` is ASCII-only here, while Go lower-cases all of Unicode (U+212A KELVIN SIGN becomes `k`).
- Utils.Truncate: it requires `n >= 0`, because the Go code panics on a negative bound.
- RepoMappers.GetByUserID: the count query is taken to ignore the limit and offset, as bun's `Count` does. `nullzero` tags and `SUM` overflow are left out.
- Store.DeleteAccount: the account's transactions stay behind, as in the source.
- Store.UpsertUser: the time zone is dropped, because the `users` table has no column for it.
- Category create and delete use cases call a `Save` that the dictionary types do not implement, so they are left out. The dictionaries' `Delete` scope is modelled.
- Mock data in `handlers/accounts.go` and the `encrypt/base64.go` wrapper are left out.

## Findings

| source | as written | input that shows it | evidently intended | confidence | as-written member | corrected member |
|---|---|---|---|---|---|---|
| internal/usecase/accounts/command/create_account.go:85-126 | no `WithTx` surrounds the command: the new account is saved with its initial balance and committed on its own, and the opening deposit is created and saved afterwards as a separate statement; when a later step fails, the account stays with a balance that no stored transaction explains | a user whose currency code is empty, and a command with balance 10.0: the account is stored with balance 1000, and the deposit is refused with "currency code must not be empty" | all steps in one `WithTx`, like the other commands, so a failure stores nothing and the ledger invariant holds | high, not executed | AccountCommands.CreateAccount, AccountCommands.NoCurrencyStopsHalfWay, AccountCommands.UnexplainedBalance | AccountCommands.CreateAccountAtomic, AccountCommands.OpeningKeepsConsistent |
| pkg/retry/retry.go:38-42 | after each wait the interval is multiplied twice: once in the `select` case, and again on the capping line | `DefaultConfig` with a function that always fails: the waits are 100ms, 400ms and 1s | the interval grows once per attempt by the multiplier, capped at `MaxInterval`: 100ms, 200ms, 400ms | high, not executed | Retry.NextInterval, Retry.Do, Retry.DefaultWaitsAsWritten | Retry.Retry, Retry.DefaultWaitsDouble, Retry.RunGrowsOnce |
