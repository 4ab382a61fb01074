/** Values that may be absent and computations that may throw. */
module Outcomes {

  /** A value that may be absent (JavaScript `null` or a falsy optional). */
  datatype Option<+T> = None | Some(value: T)

  /**
   * The settled state of a promise or a call: a value, or what was thrown.
   * It works with `:-`, which passes a failure on unchanged, as `await`
   * passes a rejection on.
   */
  datatype Result<+T, +E> = Success(value: T) | Failure(error: E) {

    predicate IsFailure()
    {
      Failure?
    }

    function PropagateFailure<U>(): Result<U, E>
      requires Failure?
    {
      Failure(error)
    }

    function Extract(): T
      requires Success?
    {
      value
    }
  }
}
