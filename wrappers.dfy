/** Small failure-carrying wrappers shared by every module of the model. */
module Wrappers {

  datatype Option<+T> = None | Some(value: T)

  /** A value or an error, as the source's `(value, error)` pairs are. */
  datatype Outcome<+T, +E> = Success(value: T) | Failure(error: E)
}
