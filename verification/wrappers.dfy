/** Optional values and call outcomes. `Option` is how the model writes a
    Python argument that may be `None` or a protobuf field that may be
    unset; `Result` is a Python call that either returns or raises, and
    works with Dafny's `:-` so that a raised exception propagates. */
module Wrappers {

  /** A handler that was not supplied, or a sub-message that was not set. */
  datatype Option<+T> = None | Some(value: T)

  /** The outcome of a call: `Success` carries what it returned, `Failure`
      the exception it raised. */
  datatype Result<+R, +E> = Success(value: R) | Failure(error: E) {

    predicate IsFailure() {
      Failure?
    }

    function PropagateFailure<U>(): Result<U, E>
      requires Failure?
    {
      Failure(error)
    }

    function Extract(): R
      requires Success?
    {
      value
    }
  }
}
