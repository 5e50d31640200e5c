/** Results of operations that can raise a validation error (Python's ValueError). */
module Outcomes {

  datatype Option<+T> = None | Some(value: T)

  /** A value, or the message of the error that the operation raises. */
  datatype Result<+T> = Ok(value: T) | Err(message: string)

  /** The outcome of an operation that returns nothing but may raise. */
  datatype Outcome = Pass | Fail(message: string)
}
