/** Option and Result, the failure-compatible wrappers used throughout the model.
    `Result` stands for "returns a value or raises": every store operation and every
    workflow step that can raise returns one, and `:-` propagates the error the way
    an uncaught Python exception does. */
module Wrappers {

  datatype Option<+T> = None | Some(value: T)

  datatype Result<+T, +E> = Success(value: T) | Failure(error: E) {

    predicate IsFailure() {
      Failure?
    }

    function PropagateFailure<U>(): Result<U, E>
      requires Failure?
    {
      Failure(error)
    }

    function Extract(): T
      requires Success?
    {
      value
    }
  }
}
