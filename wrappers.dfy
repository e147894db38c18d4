/** Failure-carrying values: Python's raised exceptions become `Failure` here. */
module Wrappers {
  datatype Option<+T> = None | Some(value: T)

  datatype Result<+R, +E> = Success(value: R) | Failure(error: E)
}
