/**
 * Translation of database driver errors into domain errors,
 * pkg/database/postgres/errors.go. `modelName` is the name of the row type
 * the repository was working on.
 */
module PgErrors {
  import opened Wrappers
  import opened Errors
  import Text

  const ConnectionKeywords: seq<string> := [
    "connection refused", "connection reset", "connection timeout", "no route to host",
    "network unreachable", "connection lost", "broken pipe", "connection closed",
    "dial tcp", "i/o timeout"
  ]

  /** Whether `s` contains one of `keywords`, scanned in order. */
  function ContainsAny(s: string, keywords: seq<string>): (r: bool)
    ensures r <==> exists i :: 0 <= i < |keywords| && Text.Contains(s, keywords[i])
  {
    if keywords == [] then false
    else Text.Contains(s, keywords[0]) || ContainsAny(s, keywords[1..])
  }

  /** `isConnectionError`: the lower-cased message contains one of the ten keywords. */
  function IsConnectionError(err: Error): (r: bool)
    ensures r <==> exists i :: 0 <= i < |ConnectionKeywords|
                               && Text.Contains(Text.ToLower(Message(err)), ConnectionKeywords[i])
  {
    ContainsAny(Text.ToLower(Message(err)), ConnectionKeywords)
  }

  function OrDefault(s: string, default: string): string {
    if s == "" then default else s
  }

  const ConflictCodes := {"23000", "23001", "23505"}

  /** `mapPostgreSQLError`: one message or domain error per SQLSTATE, a generic one otherwise. */
  function MapPgError(code: string, column: string, constraint: string, table: string, modelName: string): (r: Error)
    ensures r.Conflict? <==> code in ConflictCodes
    ensures r.Conflict? ==> r.item == modelName
    ensures !r.Conflict? ==> r.Plain?
  {
    match code
    case "08000" => Plain("database connection error")
    case "08003" => Plain("database connection lost")
    case "08006" => Plain("database connection failed")
    case "23000" => Conflict(modelName)
    case "23001" => Conflict(modelName)
    case "23502" => Plain(modelName + " is missing required field: " + OrDefault(column, "required field"))
    case "23503" => Plain(modelName + " references non-existent " + OrDefault(constraint, "related record"))
    case "23505" => Conflict(modelName)
    case "23514" => Plain(modelName + " violates " + OrDefault(constraint, "constraint") + " constraint")
    case "42601" => Plain("database query syntax error")
    case "42703" => Plain("database schema error: column '" + OrDefault(column, "unknown column") + "' does not exist")
    case "42P01" => Plain("database schema error: table '" + OrDefault(table, "unknown table") + "' does not exist")
    case "42501" => Plain("insufficient database privileges to perform " + modelName + " operation")
    case "53100" => Plain("database storage is full")
    case "53200" => Plain("database out of memory")
    case "53300" => Plain("too many database connections")
    case "57000" => Plain("database operation was cancelled by administrator")
    case "57014" => Plain(modelName + " operation was cancelled")
    case "57P01" => Plain("database is shutting down")
    case "58000" => Plain("database system error")
    case "58030" => Plain("database I/O error")
    case _ => Plain("database error occurred while processing " + modelName)
  }

  /** The first branch of `Error` that applies: no rows. */
  predicate IsNoRows(err: Error) {
    GoIs(err, ErrNoRows) || Text.Contains(Text.ToLower(Message(err)), "no rows")
  }

  /**
   * `Error`: nil stays nil; otherwise the first matching check decides, in the
   * order no rows, deadline, cancellation, driver error, connection failure,
   * and finally a wrapping fallback.
   */
  function DbError(err: Option<Error>, modelName: string): (r: Option<Error>)
    ensures err.None? <==> r.None?
    ensures err.Some? && IsNoRows(err.value) ==> r == Some(NotFound(modelName))
    ensures err.Some? && !IsNoRows(err.value) ==> r.Some? && !r.value.NotFound?
    ensures r.Some? && r.value.Conflict? ==> r.value.item == modelName
  {
    match err
    case None => None
    case Some(e) =>
      if IsNoRows(e) then Some(NotFound(modelName))
      else if GoIs(e, DeadlineExceeded) then Some(Plain("database operation timed out while processing " + modelName))
      else if GoIs(e, Canceled) then Some(Plain("database operation was cancelled for " + modelName))
      else if AsPg(e).Some? then
        var pg := AsPg(e).value;
        Some(MapPgError(pg.code, pg.column, pg.constraint, pg.table, modelName))
      else if IsConnectionError(e) then Some(Plain("database connection failed"))
      else Some(Wrapped("unexpected database error occurred: ", e))
  }

  /** The error a repository returns for a failing driver call (`postgres.Error` on a non-nil error). */
  function RepoError(fault: Error, modelName: string): (r: Error)
    ensures IsNoRows(fault) ==> r == NotFound(modelName)
    ensures !IsNoRows(fault) ==> !r.NotFound?
  {
    DbError(Some(fault), modelName).value
  }

  /**
   * Only a driver error with one of the three conflict codes, and that is not
   * a no-rows, timeout or cancellation error, becomes a conflict.
   */
  lemma DbErrorConflictIff(e: Error, modelName: string)
    ensures DbError(Some(e), modelName).value.Conflict? <==>
              (!IsNoRows(e) && !GoIs(e, DeadlineExceeded) && !GoIs(e, Canceled)
               && AsPg(e).Some? && AsPg(e).value.code in ConflictCodes)
  {
  }

  /** The fallback wraps, so the original error is still found by `errors.Is`. */
  lemma FallbackKeepsCause(e: Error, target: Error, modelName: string)
    requires !IsNoRows(e) && !GoIs(e, DeadlineExceeded) && !GoIs(e, Canceled)
    requires AsPg(e).None? && !IsConnectionError(e)
    requires !target.Wrapped?
    ensures GoIs(e, target) ==> Is(DbError(Some(e), modelName), target)
  {
  }

  /** The missing-row sentinel, however deeply wrapped, maps to not found. */
  lemma {:induction false} WrappedNoRowsIsNotFound(prefixes: seq<string>, modelName: string)
    ensures DbError(Some(WrapAll(prefixes, ErrNoRows)), modelName) == Some(NotFound(modelName))
  {
    WrapAllIs(prefixes, ErrNoRows);
  }

  function WrapAll(prefixes: seq<string>, e: Error): Error {
    if prefixes == [] then e else Wrapped(prefixes[0], WrapAll(prefixes[1..], e))
  }

  lemma {:induction false} WrapAllIs(prefixes: seq<string>, e: Error)
    requires Comparable(e) && !e.Wrapped?
    ensures GoIs(WrapAll(prefixes, e), e)
  {
    if prefixes != [] {
      WrapAllIs(prefixes[1..], e);
    }
  }
}
