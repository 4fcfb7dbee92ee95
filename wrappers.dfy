/** Option and Result, the two failure-carrying values the model uses for Go's
    `(value, error)` returns and for calls that may not produce a value. */
module Wrappers {

  datatype Option<+T> = None | Some(value: T)

  datatype Result<+R, +E> = Success(value: R) | Failure(error: E)
}
