/** Option and Result, used for the source's `null` values and its thrown exceptions. */
module Wrappers {

  /** `None` stands for a C# `null` reference. */
  datatype Option<+T> = None | Some(value: T)

  /** `Failure` stands for an exception thrown by the source. */
  datatype Result<+R, +E> = Success(value: R) | Failure(error: E)
}
