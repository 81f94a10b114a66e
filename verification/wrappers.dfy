/** Failure-compatible wrappers shared by the other modules.
    - Option<T> is a value that may be missing: a Java reference that may be
      `null`, an optional layer, an error that may not have happened.
    - Result<T, E> carries either a computed value or the reason it could not be computed.
 */
module Wrappers {

  datatype Option<+T> = None | Some(value: T) {

    /** The value, or `default` when there is none. */
    function GetOr(default: T): T {
      match this
      case Some(v) => v
      case None => default
    }
  }

  datatype Result<+T, +E> = Success(value: T) | Failure(error: E) {

    predicate IsFailure() {
      Failure?
    }

    function PropagateFailure<U>(): Result<U, E>
      requires Failure?
    {
      Failure(error)
    }

    function Extract(): T
      requires Success?
    {
      value
    }
  }
}
