/** Optional values, used where the Go code returns a nil pointer or a nil error. */
module Wrappers {

  datatype Option<+T> = None | Some(value: T)

  /** A value or an error, for the Go idiom `(value, error)`. */
  datatype Result<+T, +E> = Success(value: T) | Failure(error: E)
}
