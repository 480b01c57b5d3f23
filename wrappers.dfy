/** Optional values and results with an error, used for PHP's nullable
    values and for the exceptions the client throws. */
module Wrappers {

  /** A value that may be absent: PHP's `null` is `None`. */
  datatype Option<+T> = None | Some(value: T)

  /** The outcome of an operation that returns a value or throws. */
  datatype Result<+T, +E> = Success(value: T) | Failure(error: E)
}
