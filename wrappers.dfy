/** Option and Result, the datatypes every other module uses for absent values
    and for exceptions. */
module Wrappers {

  datatype Option<+T> = None | Some(value: T)

  /** The outcome of an operation that may throw: a value, or the error thrown. */
  datatype Result<+T, +E> = Success(value: T) | Failure(error: E)
}
