/** Option and Result, the failure-compatible wrappers used throughout the model. */
module Wrappers {

  datatype Option<+T> = None | Some(value: T)

  /** A value, or the error message an operation rejects its input with. */
  datatype Result<+R, +E> = Success(value: R) | Failure(error: E)
}
