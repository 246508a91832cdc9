/** Failure-compatible result and optional values used throughout the model. */
module Wrappers {

  /** An optional value; `None` stands for JavaScript's `null` or an absent key. */
  datatype Option<+T> = None | Some(value: T)

  /** The outcome of a step that may throw (a serializer error, a rejected promise). */
  datatype Result<+T, +E> = Success(value: T) | Failure(error: E) {

    predicate IsFailure() {
      Failure?
    }

    function PropagateFailure<U>(): Result<U, E>
      requires Failure?
    {
      Failure(error)
    }

    function Extract(): T
      requires Success?
    {
      value
    }
  }
}
