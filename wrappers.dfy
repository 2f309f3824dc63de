/** Failure-compatible wrappers shared by every module of the model. */
module Wrappers {

  /** A value that may be missing: Ruby's `nil` where the source tolerates it. */
  datatype Option<+T> = None | Some(value: T)

  /** Either a value or the exception the Ruby code would raise instead. */
  datatype Result<+T, +E> = Success(value: T) | Failure(error: E)
}
