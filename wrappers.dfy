/** Option, the stand-in for JavaScript's `undefined` / `null` results. */
module Wrappers {

  datatype Option<+T> = None | Some(value: T) {

    /** The wrapped value, or `default` when there is none (the `x ?? default` idiom). */
    function GetOr(default: T): T {
      match this
      case Some(v) => v
      case None => default
    }
  }

  /** The outcome of a store function that may `throw new Error(message)`. */
  datatype Result<+T, +E> = Success(value: T) | Failure(error: E)
}
