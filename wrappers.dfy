/** Option, Result and Outcome: the values that stand for Python's `None`
    defaults and for raised exceptions throughout the model. */
module Wrappers {

  datatype Option<+T> = None | Some(value: T) {
    function GetOr(default: T): T {
      match this
      case Some(v) => v
      case None => default
    }
  }

  /** Either a value or the exception that was raised instead. */
  datatype Result<+T, +E> = Success(value: T) | Failure(error: E)

  /** The result of an operation that returns nothing: it either completes
      or raises. */
  datatype Outcome<+E> = Pass | Fail(error: E)
}
