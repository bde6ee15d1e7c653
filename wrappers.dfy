/** Option and Result: `null` and thrown exceptions of the host code, made explicit. */
module Wrappers {

  datatype Option<+T> = None | Some(value: T)

  /** Either a value or the exception the host code would have thrown. */
  datatype Result<+T, +E> = Success(value: T) | Failure(error: E)
}
