/** Option and Result, used for Python's None and for exceptions that the
    source raises or converts into values. */
module Wrappers {

  datatype Option<+T> = None | Some(value: T)

  datatype Result<+R, +E> = Success(value: R) | Failure(error: E)
}
