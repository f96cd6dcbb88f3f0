/** Optional values and results with an error, standing for `undefined`/`null` and thrown errors. */
module Wrappers {

  datatype Option<+T> = None | Some(value: T) {

    /** The value, or `default` when there is none (the TypeScript `?? default`). */
    function GetOr(default: T): T {
      match this
      case Some(v) => v
      case None => default
    }
  }

  /** The outcome of an operation that may throw: a value, or the message of the error it raised. */
  datatype Result<+T, +E> = Success(value: T) | Failure(error: E) {

    function ToOption(): Option<T> {
      match this
      case Success(v) => Some(v)
      case Failure(_) => None
    }
  }
}
