/** Failure-carrying result types shared by the other modules. */
module Wrappers {

  /** A value that may be absent: Python's `None` or a solver that gave up. */
  datatype Option<+T> = None | Some(value: T)

  /**
   * The outcome of a computation that may raise: `Failure` stands for an uncaught exception.
   * Failure-compatible, so `:-` propagates the first failure.
   */
  datatype Result<+R, +E> = Success(value: R) | Failure(error: E) {

    predicate IsFailure() {
      Failure?
    }

    function PropagateFailure<U>(): Result<U, E>
      requires Failure?
    {
      Failure(error)
    }

    function Extract(): R
      requires Success?
    {
      value
    }
  }
}
