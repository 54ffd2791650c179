/** The exceptions the program raises, and the result of an operation that may raise one. */
module Errors {

  /** `BalanceError` is the program's own exception class; `ValueError` is Python's built-in one,
      raised by the salary setter. */
  datatype Error = BalanceError | ValueError

  /** A value, or the exception raised instead of producing it. */
  datatype Result<T> = Ok(value: T) | Err(error: Error)

  /** An operation with no value: it completes, or it raises. */
  datatype Outcome = Pass | Fail(error: Error)
}
