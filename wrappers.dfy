/** Option and Result, used for the source's null values and error returns. */
module Wrappers {

  /** `None` stands for JavaScript's `null`/`undefined` or Python's `None`. */
  datatype Option<+T> = None | Some(value: T)

  /** An operation that either succeeds with a value or fails with an error. */
  datatype Result<+T, +E> = Ok(value: T) | Err(error: E)
}
