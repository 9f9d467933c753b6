/**
 * Shared vocabulary of the route handlers: nullable values, query outcomes,
 * the errors a handler hands to the next middleware, and HTTP replies.
 *
 * The database is not modelled: every handler receives the outcome of the
 * query it issues (its rows, its row count, or the error the driver raised).
 */
module Api {

  /** A column that may be SQL NULL (or a JavaScript value that may be undefined). */
  datatype Option<+T> = None | Some(value: T)

  datatype Result<+T, +E> = Ok(value: T) | Err(error: E)

  /** Milliseconds since the epoch, the unit of `Date.now()`. */
  type Timestamp = int

  /** The `amt` column of an invoice; the handlers never compute with it. */
  type Amount = real

  /** SQLSTATE of a unique-constraint violation. */
  const UniqueViolation: string := "23505"

  /** SQLSTATE of a foreign-key-constraint violation. */
  const ForeignKeyViolation: string := "23503"

  /**
   * An error raised by a query. The driver sets `code` to the SQLSTATE for
   * errors reported by the server; other failures (a lost connection) carry none.
   */
  datatype DbError = DbError(code: Option<string>)

  /** The rows a query returned, or the error it raised. */
  type Rows<T> = Result<seq<T>, DbError>

  /** The number of rows a DELETE affected (`rowCount`), or the error it raised. */
  type RowCount = Result<nat, DbError>

  /**
   * What a handler passes to `next(...)`: an ExpressError carrying a message
   * and an HTTP status, or the query's own error, unchanged.
   */
  datatype Failure = HttpError(message: string, status: nat) | Propagated(cause: DbError)

  /** A handler either replies with a status and a JSON body, or fails. */
  datatype Response<+T> = Reply(status: nat, body: T) | Fail(failure: Failure)

  /** A one-key confirmation object such as `{status: "Invoice deleted"}`. */
  datatype Notice = Notice(key: string, text: string)

  /**
   * `rows[0]` in JavaScript: the first row, or `undefined` (here `None`) when
   * there is none. `res.json({x: undefined})` then sends `{}`.
   */
  function First<T>(rows: seq<T>): (r: Option<T>)
    ensures r.Some? <==> |rows| > 0
    ensures r.Some? ==> r.value == rows[0]
  {
    if |rows| == 0 then None else Some(rows[0])
  }

  /**
   * The pattern `if (err.code === code) return next(new ExpressError(message, status));
   * return next(err);` of the catch blocks.
   */
  function TranslateError(e: DbError, code: string, message: string, status: nat): (f: Failure)
    ensures f.HttpError? <==> e.code == Some(code)
    ensures f.HttpError? ==> f.message == message && f.status == status
    ensures f.Propagated? ==> f.cause == e
  {
    if e.code == Some(code) then HttpError(message, status) else Propagated(e)
  }
}
