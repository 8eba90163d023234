/** The two Python exception classes the validator raises, and the shapes of
    a call's verdict: a check either passes or fails with one error kind. */
module Outcomes {

  /** The exception class raised by a failing check. */
  datatype ErrorKind = TypeError | ValueError

  /** The verdict of a check that returns nothing on success. */
  datatype Outcome = Pass | Fail(kind: ErrorKind)

  /** The verdict of a call that returns a value on success. */
  datatype Result<T> = Ok(value: T) | Err(kind: ErrorKind)

  /** An optional argument (Python's `None` default). */
  datatype Option<T> = None | Some(value: T)
}
