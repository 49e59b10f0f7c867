/**
 * The unit-of-work helper of pkg/database/postgres/trx.go: a context may
 * carry an open database transaction, and `WithTx` runs a function inside a
 * fresh one, rolling back on failure and committing on success.
 */
module Trx {
  import opened Wrappers
  import opened Errors

  /** A handle to run statements on: the shared pool or one open transaction. */
  datatype Conn = Pool | Tx(serial: nat)

  /** The part of a `context.Context` the helper uses: the transaction stored under its key. */
  datatype Ctx = Ctx(tx: Option<Conn>)

  /** `FromContext`: the transaction stored in the context, else the default handle. */
  function FromContext(ctx: Ctx, defaultDb: Conn): (r: Conn)
    ensures ctx.tx.Some? ==> r == ctx.tx.value
    ensures ctx.tx.None? ==> r == defaultDb
  {
    match ctx.tx
    case Some(c) => c
    case None => defaultDb
  }

  /** `context.WithValue(ctx, txCtx{}, tx)`. */
  function WithTxValue(ctx: Ctx, tx: Conn): Ctx {
    Ctx(Some(tx))
  }

  /** How the function given to `WithTx` ended. */
  datatype FnResult = Returned(err: Option<Error>) | Panicked(value: string)

  /** What became of the database transaction. */
  datatype TxEnd = NotBegun | RolledBack | Committed | CommitFailed

  datatype Outcome = Outcome(fnCalled: bool, end: TxEnd, err: Option<Error>, repanic: Option<string>)

  /**
   * `WithTx` given what begin, the function, rollback and commit report:
   * a failed begin wraps its error and never calls the function; a panic
   * rolls back and panics again; a function error rolls back and is returned
   * as is, or folded into one message with the rollback's error; otherwise
   * the commit's result is returned.
   */
  function WithTx(beginErr: Option<Error>, fn: FnResult, rbErr: Option<Error>, commitErr: Option<Error>): (o: Outcome)
    ensures beginErr.Some? ==> !o.fnCalled && o.end == NotBegun
                               && o.err == Some(Wrapped("failed to begin transaction: ", beginErr.value))
    ensures beginErr.None? ==> o.fnCalled
    ensures o.end == Committed <==> beginErr.None? && fn == Returned(None) && commitErr.None?
    ensures o.repanic.Some? <==> beginErr.None? && fn.Panicked?
  {
    if beginErr.Some? then Outcome(false, NotBegun, Some(Wrapped("failed to begin transaction: ", beginErr.value)), None)
    else
      match fn
      case Panicked(p) => Outcome(true, RolledBack, None, Some(p))
      case Returned(None) => Outcome(true, if commitErr.Some? then CommitFailed else Committed, commitErr, None)
      case Returned(Some(e)) =>
        var err := if rbErr.Some? then Plain("tx err: " + Message(e) + ", rb err: " + Message(rbErr.value)) else e;
        Outcome(true, RolledBack, Some(err), None)
  }

  /** Nothing is committed unless `WithTx` returns nil without panicking, and then it is. */
  lemma CommitIffNoError(beginErr: Option<Error>, fn: FnResult, rbErr: Option<Error>, commitErr: Option<Error>)
    ensures var o := WithTx(beginErr, fn, rbErr, commitErr);
            o.end == Committed <==> o.err.None? && o.repanic.None?
  {
  }

  /**
   * A function error comes back unchanged when rollback succeeds, so every
   * `errors.Is` answer survives; when rollback also fails it comes back as a
   * flat message that no domain error type recognises.
   */
  lemma FnErrorReturned(e: Error, rbErr: Option<Error>, commitErr: Option<Error>, target: Error)
    ensures rbErr.None? ==> WithTx(None, Returned(Some(e)), rbErr, commitErr).err == Some(e)
    ensures rbErr.Some? ==> var r := WithTx(None, Returned(Some(e)), rbErr, commitErr).err.value;
                            r.Plain? && KindOf(r) == KOther && !IsMethod(r, target)
  {
  }

  /** The function always sees the new transaction, whatever the caller's context carried. */
  lemma FnSeesNewTx(ctx: Ctx, tx: Conn, defaultDb: Conn)
    ensures FromContext(WithTxValue(ctx, tx), defaultDb) == tx
  {
  }
}
