/** Option and Result: a missing entity (the source's `null`) and an operation that
    either produces a value or fails with one of the source's exceptions. */
module Wrappers {

  datatype Option<+T> = None | Some(value: T)

  datatype Result<+R, +E> = Success(value: R) | Failure(error: E)
}
