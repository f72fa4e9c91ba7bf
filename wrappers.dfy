/** Option and Result datatypes, and the Python exceptions the core can raise. */
module Wrappers {

  datatype Option<+T> = None | Some(value: T)

  /** The exception classes that the modelled Python code raises. */
  datatype Exception =
    | ValueError
    | KeyError
    | IndexError
    | TypeError
    | AssertionError
    | NotImplementedError
    | RuntimeError

  /** A value, or the exception that was raised instead of returning it. */
  datatype Result<+T> = Ok(value: T) | Err(error: Exception) {
    predicate IsFailure() { Err? }

    function PropagateFailure<U>(): Result<U>
      requires Err?
    {
      Err(error)
    }

    function Extract(): T
      requires Ok?
    {
      value
    }
  }

  /** Normal return of a procedure without result (`None` in Python), or the exception it raised. */
  datatype Outcome = Pass | Fail(error: Exception)
}
