/** Option and Result: absence of a value, and an operation that either
    succeeds with a value or fails with an error (a JavaScript throw). */
module Wrappers {

  datatype Option<+T> = None | Some(value: T)

  datatype Result<+T, +E> = Success(value: T) | Failure(error: E)
}
