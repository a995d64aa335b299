/** Result and option values shared by every model in this project. */
module Wrappers {
  datatype Option<+T> = None | Some(value: T)

  /** A Python call that either returns or raises; `Failure` names the exception class. */
  datatype Result<+T, +E> = Success(value: T) | Failure(error: E) {
    predicate IsFailure() { Failure? }

    function PropagateFailure<U>(): Result<U, E>
      requires Failure?
    {
      Failure(error)
    }

    function Ok(): Option<T> {
      match this
      case Success(v) => Some(v)
      case Failure(_) => None
    }

    function Extract(): T
      requires Success?
    {
      value
    }
  }
}
