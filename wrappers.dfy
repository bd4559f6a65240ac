/** Option and Result wrappers shared by the other modules. */
module Wrappers {

  /** A value that may be missing: a parse failure, an engine call that raised. */
  datatype Option<+T> = None | Some(value: T)

  /** Either a value or the error that stopped its computation. */
  datatype Result<+T, +E> = Success(value: T) | Failure(error: E)
}
