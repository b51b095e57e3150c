/** Option and Result values shared by every module of the model. */
module Wrappers {

  /** A value that may be absent: an optional field, a JavaScript `undefined` or `null`. */
  datatype Option<+T> = None | Some(value: T)

  /** The outcome of a computation that can fail with an error of type E. */
  datatype Result<+T, +E> = Success(value: T) | Failure(error: E) {

    predicate IsFailure() {
      Failure?
    }

    function PropagateFailure<U>(): Result<U, E>
      requires Failure?
    {
      Failure(error)
    }

    function Extract(): T
      requires Success?
    {
      value
    }
  }
}
