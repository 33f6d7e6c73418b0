/** The value-or-exception datatypes the model uses for Python's "return or raise". */
module Wrappers {

  datatype Option<+T> = None | Some(value: T)

  /** A value, or the exception that was raised instead of returning it. */
  datatype Result<+R, +E> = Ok(value: R) | Err(error: E)

  /** A call that returns nothing, or the exception it raised. */
  datatype Outcome<+E> = Pass | Fail(error: E)
}
