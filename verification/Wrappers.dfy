/** Failure-compatible results shared by the models of the Python and JavaScript tools. */
module Wrappers {

  datatype Option<+T> = None | Some(value: T)

  /** A Python call that either returned a value or raised. */
  datatype Result<+T, +E> = Success(value: T) | Failure(error: E) {
    predicate IsFailure() { Failure? }

    function PropagateFailure<U>(): Result<U, E>
      requires Failure?
    {
      Failure(error)
    }

    function Extract(): T
      requires Success?
    {
      value
    }
  }
}
