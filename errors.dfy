/**
 * Go error values as the core produces and inspects them: the domain error
 * types of internal/inerr, the sentinels of the standard library and of
 * internal/inerr/auth.go, the PostgreSQL driver's error, plain `fmt.Errorf`
 * messages and `%w` wrapping, together with `Error()` and `errors.Is`.
 */
module Errors {
  import opened Wrappers

  datatype Error =
    | NotFound(item: string)                     // inerr.ErrNotFound
    | Conflict(item: string)                     // inerr.ErrConflict
    | NoChanges(item: string)                    // inerr.ErrNoChanges
    | Validation(item: string, msg: string)      // inerr.ErrValidation
    | Http(statusCode: int, httpMethod: string, endpoint: string,
           duration: int, message: string, body: string)   // inerr.ErrHttp
    | InvalidToken(err: Error)                   // inerr.ErrInvalidToken
    | Ref(target: Error)                         // a pointer to one of the struct errors above
    | Sentinel(text: string)                     // a package-level `errors.New` value, compared by identity
    | Plain(text: string)                        // `errors.New` / `fmt.Errorf` without `%w`
    | Wrapped(prefix: string, inner: Error)      // `fmt.Errorf(prefix + "%w", inner)`
    | Pg(severity: string, code: string, message: string,
         column: string, constraint: string, table: string)  // *pgconn.PgError

  /** A Go `(value, error)` pair where exactly one side is meaningful. */
  datatype Result<+T> = Ok(value: T) | Err(error: Error)

  const ErrNoRows := Sentinel("sql: no rows in result set")
  const DeadlineExceeded := Sentinel("context deadline exceeded")
  const Canceled := Sentinel("context canceled")
  const PermissionDenied := Sentinel("permission denied")
  const WrongAlgo := Sentinel("wrong algorithm")
  const ExpiredToken := Sentinel("token is expired")

  /** `Error()` of every error kind. */
  function Message(e: Error): string {
    match e
    case NotFound(item) => item + " not found"
    case Conflict(item) => item + " conflict"
    case NoChanges(item) => item + " no changes"
    case Validation(item, msg) => item + " is invalid: " + msg
    case Http(_, _, _, _, message, body) => message + ": " + body
    case InvalidToken(inner) => Message(inner)
    case Ref(target) => Message(target)
    case Sentinel(text) => text
    case Plain(text) => text
    case Wrapped(prefix, inner) => prefix + Message(inner)
    case Pg(severity, code, message, _, _, _) => severity + ": " + message + " (SQLSTATE " + code + ")"
  }

  /** The struct types of internal/inerr that carry an `Is` method. */
  datatype Kind = KNotFound | KConflict | KNoChanges | KValidation | KHttp | KInvalidToken | KOther

  /**
   * The type of an error as an `Is` method sees it: a struct value or a
   * pointer to one (the pointer's method set includes the value methods).
   */
  function KindOf(e: Error): Kind {
    match e
    case NotFound(_) => KNotFound
    case Conflict(_) => KConflict
    case NoChanges(_) => KNoChanges
    case Validation(_, _) => KValidation
    case Http(_, _, _, _, _, _) => KHttp
    case InvalidToken(_) => KInvalidToken
    case Ref(t) => if t.Ref? then KOther else KindOf(t)
    case _ => KOther
  }

  /**
   * The `Is(target)` method of the error types of internal/inerr: true for a
   * target of the same type, by value or by pointer, whatever its fields.
   * Errors of other types have no `Is` method.
   */
  predicate IsMethod(err: Error, target: Error) {
    KindOf(err) != KOther && KindOf(err) == KindOf(target)
  }

  /** `ErrHttp` holds a byte slice, so `errors.Is` never compares it with `==`. */
  predicate Comparable(e: Error) {
    !e.Http?
  }

  /** `errors.Is`: equality, then the `Is` method, then down the `%w` chain. */
  predicate GoIs(err: Error, target: Error) {
    (Comparable(target) && err == target)
    || IsMethod(err, target)
    || (err.Wrapped? && GoIs(err.inner, target))
  }

  /** `errors.Is` on a possibly nil error. */
  predicate Is(err: Option<Error>, target: Error) {
    err.Some? && GoIs(err.value, target)
  }

  /** `errors.As(err, &pgErr)`: the first PostgreSQL error down the `%w` chain. */
  function AsPg(err: Error): (r: Option<Error>)
    ensures r.Some? ==> r.value.Pg?
    ensures err.Pg? ==> r == Some(err)
  {
    if err.Pg? then Some(err)
    else if err.Wrapped? then AsPg(err.inner)
    else None
  }

  function NewErrNotFound(item: string): Error { NotFound(item) }
  function NewErrConflict(item: string): Error { Conflict(item) }
  function NewErrNoChanges(item: string): Error { NoChanges(item) }
  function NewErrValidation(item: string, msg: string): Error { Validation(item, msg) }
  function NewErrInvalidToken(err: Error): Error { InvalidToken(err) }

  /**
   * `NewErrHttp`: a pointer to an `ErrHttp` that keeps the status, message and
   * body; the method and endpoint arguments are dropped and the duration is zero.
   */
  function NewErrHttp(statusCode: int, httpMethod: string, endpoint: string, message: string, body: string): (r: Error)
    ensures r.Ref? && r.target.Http? && KindOf(r) == KHttp
    ensures r.target.statusCode == statusCode && r.target.message == message && r.target.body == body
    ensures r.target.httpMethod == "" && r.target.endpoint == "" && r.target.duration == 0
  {
    Ref(Http(statusCode, "", "", 0, message, body))
  }

  /** The method and endpoint given to `NewErrHttp` leave no trace in the error. */
  lemma NewErrHttpIgnoresRequest(status: int, m1: string, e1: string, m2: string, e2: string, msg: string, body: string)
    ensures NewErrHttp(status, m1, e1, msg, body) == NewErrHttp(status, m2, e2, msg, body)
    ensures Message(NewErrHttp(status, m1, e1, msg, body)) == msg + ": " + body
  {
  }

  /**
   * The `Is` methods of db.go, validation.go, http.go and auth.go match every
   * target of their own type, by value or by pointer, and nothing else.
   */
  lemma IsMethodByType(err: Error, target: Error)
    requires err.NotFound? || err.Conflict? || err.NoChanges? || err.Validation? || err.Http? || err.InvalidToken?
    ensures IsMethod(err, target) <==>
              (KindOf(target) == KindOf(err)
               && (target.Ref? ==> !target.target.Ref?))
  {
  }

  /** Any two `ErrNotFound`s are `errors.Is`-equal, whatever their items. */
  lemma NotFoundMatchesAnyItem(a: string, b: string)
    ensures GoIs(NotFound(a), NotFound(b)) && GoIs(NotFound(a), Ref(NotFound(b)))
    ensures GoIs(Ref(NotFound(a)), NotFound(b))
    ensures !GoIs(NotFound(a), Conflict(b)) && !GoIs(NotFound(a), NoChanges(b))
  {
  }

  /** Wrapping with `%w` keeps every `errors.Is` answer of the wrapped error. */
  lemma WrapKeepsIs(prefix: string, e: Error, target: Error)
    requires !target.Wrapped?
    ensures GoIs(Wrapped(prefix, e), target) <==> GoIs(e, target)
  {
  }

  /** A message built from an item and a fixed suffix gives the item back. */
  lemma SuffixInjective(a: string, b: string, suffix: string)
    requires a + suffix == b + suffix
    ensures a == b
  {
    assert |a| == |b|;
    assert a == (a + suffix)[..|a|];
    assert b == (b + suffix)[..|b|];
  }

  /** Two `ErrNotFound`s, `ErrConflict`s or `ErrNoChanges`s with the same text have the same item. */
  lemma MessageDeterminesItem(e1: Error, e2: Error)
    requires (e1.NotFound? && e2.NotFound?) || (e1.Conflict? && e2.Conflict?) || (e1.NoChanges? && e2.NoChanges?)
    requires Message(e1) == Message(e2)
    ensures e1 == e2
  {
    var suffix := if e1.NotFound? then " not found" else if e1.Conflict? then " conflict" else " no changes";
    SuffixInjective(e1.item, e2.item, suffix);
  }
}
