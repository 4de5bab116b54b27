/** Option and Result, the shapes of Go's "value or nil" and "(value, error)" returns. */
module Wrappers {

  datatype Option<+T> = None | Some(value: T)

  datatype Result<+R, +E> = Success(value: R) | Failure(error: E)
}
