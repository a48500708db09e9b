/** Failure-carrying values shared by every module of the model. */
module Wrappers {

  /** Python's `None`-or-value, and an absent dictionary key. */
  datatype Option<+T> = None | Some(value: T) {
    function GetOr(default: T): T {
      match this
      case Some(v) => v
      case None => default
    }
  }

  /** The outcome of an operation that may raise: `Failure` carries `str(e)`. */
  datatype Result<+T> = Success(value: T) | Failure(error: string)
}
