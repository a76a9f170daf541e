/** Failure-compatible wrappers used throughout the model. */
module Wrappers {

  /** An optional value: `None` stands for Python's `None`. */
  datatype Option<+T> = None | Some(value: T)

  /** The outcome of an operation that may raise: `Err` carries the exception. */
  datatype Result<+R, +E> = Ok(value: R) | Err(error: E)
}
