/**
 * Request bodies and response envelopes of the route handlers.
 *
 * A body property is an `Option`: `None` is `undefined`. JavaScript's
 * `!body.x` is `Falsy` for strings (missing or empty) and `FalsyNum` for
 * numbers (missing or zero).
 */
module Http {
  import opened Wrappers

  predicate Falsy(s: Option<string>) {
    s.None? || s.value == ""
  }

  predicate FalsyNum(n: Option<int>) {
    n.None? || n.value == 0
  }

  /**
   * The envelope a handler returns: `useResponseSuccess(data)`, an explicit
   * `{ code, data: null, message }` object, or `useResponseError(message)`
   * (whose code is chosen inside that helper).
   */
  datatype Reply<+T> = Ok(data: T) | Error(code: int, message: string) | Rejected(message: string)
}
