/** Option and Result, the failure-carrying values the model uses for Go's
    `(value, error)` pairs and for optional values. */
module Wrappers {

  datatype Option<+T> = None | Some(value: T)

  datatype Result<+T, +E> = Success(value: T) | Failure(error: E)
}
