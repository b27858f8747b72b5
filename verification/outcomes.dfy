/** Failure-carrying result types used across the model. */
module Outcomes {

  /** A value that may be absent (Python's `None`). */
  datatype Option<+T> = None | Some(value: T)

  /** Either a value or the text of a raised exception. */
  datatype Result<+T> = Ok(value: T) | Err(error: string)
}
