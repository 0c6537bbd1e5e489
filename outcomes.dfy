/** The two Python exceptions that the training helpers can raise, and the
    result type through which the model reports them instead of raising. */
module Outcomes {

  /** `assert` failing raises AssertionError; `/` by zero raises ZeroDivisionError. */
  datatype PyError = AssertionError | ZeroDivisionError

  /** Either the value the Python code returns, or the exception it raises. */
  datatype Result<+T> = Ok(value: T) | Err(error: PyError)
}
