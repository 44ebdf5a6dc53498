/** Failure-carrying values shared by every module of the model. */
module Wrappers {

  /** A value that may be absent: a missing dictionary key, a JavaScript `undefined`/`null`. */
  datatype Option<T> = None | Some(value: T) {
    function GetOr(default: T): T {
      match this
      case Some(v) => v
      case None => default
    }
  }

  /** The outcome of an operation that can raise: the value, or the error it raises. */
  datatype Result<T, E> = Ok(value: T) | Err(error: E)
}
