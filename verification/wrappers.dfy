/** Optional values and the settled outcome of an awaited backend call. */
module Wrappers {

  /** A value that may be absent (`null` / `undefined` in the front-end). */
  datatype Option<+T> = None | Some(value: T)

  /** How an awaited call settled: with its decoded body, or rejected
      (transport error, error status, or a body that did not decode). */
  datatype Outcome<+T> = Success(value: T) | Failure
}
