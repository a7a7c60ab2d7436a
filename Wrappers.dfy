/** Option, Result and Outcome: the optional values and the raised errors of the generator. */
module Wrappers {

  datatype Option<+T> = None | Some(value: T)

  /** A value, or the error the Python code would raise instead of returning. */
  datatype Result<+R, +E> = Success(value: R) | Failure(error: E) {

    predicate IsFailure() {
      Failure?
    }

    function PropagateFailure<U>(): Result<U, E>
      requires Failure?
    {
      Failure(error)
    }

    function Extract(): R
      requires Success?
    {
      value
    }
  }

  /** Success or an error, for operations that return nothing. */
  datatype Outcome<+E> = Pass | Fail(error: E)
}
