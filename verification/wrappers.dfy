/** The values the model returns where the test drivers raise an exception,
    fail an `assert`, or call `sys.exit` part-way through a run. */
module Wrappers {

  datatype Option<+T> = None | Some(value: T)

  /** A computation that either produces a value or stops with an error. */
  datatype Result<+T, +E> = Success(value: T) | Failure(error: E) {

    predicate IsFailure() {
      Failure?
    }

    function PropagateFailure<U>(): Result<U, E>
      requires Failure?
    {
      Failure(error)
    }

    function Extract(): T
      requires Success?
    {
      value
    }
  }

  /** A validation step of the consistency checker: it passes, or it fails
      with the reason its `assert` would have printed. */
  datatype Outcome<+E> = Pass | Fail(error: E)
}
