/** The optional values and error results used wherever the Python code has "a value or nothing" or raises. */
module Wrappers {
  datatype Option<+T> = None | Some(value: T)

  /** A computation that either gives a value or raises an exception with the given message. */
  datatype Result<+T> = Ok(value: T) | Err(error: string)
}
