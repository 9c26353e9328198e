/** Return values that stand for the source's exceptions, and for its `None`. */
module Wrappers {
  datatype Result<+T, +E> = Success(value: T) | Failure(error: E)
  datatype Option<+T> = None | Some(value: T)
}
