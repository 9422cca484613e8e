/** Failure-compatible wrappers for optional values and results with an error. */
module Wrappers {

  datatype Option<+T> = None | Some(value: T)

  /** A completed computation: either a value or the error the source would raise. */
  datatype Result<+R, +E> = Ok(value: R) | Err(error: E)
}
