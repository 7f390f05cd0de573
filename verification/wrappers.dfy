/** Optional values and success/failure results, used for every error return of the adapter. */
module Wrappers {

  /** A value that may be missing: Go's nil pointer or "not found". */
  datatype Option<+T> = None | Some(value: T)

  /** A Go `(value, error)` pair where exactly one side is meaningful. */
  datatype Result<+T, +E> = Success(value: T) | Failure(error: E)

  /** A Go function that returns only an `error`. */
  datatype Outcome<+E> = Pass | Fail(error: E)
}
