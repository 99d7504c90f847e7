/** Failure-carrying results shared by the whole model: the source's
    `{ success, data?, error? }` records and its nullable returns. */
module Wrappers {

  datatype Option<+T> = None | Some(value: T) {
    function GetOr(default: T): T {
      match this
      case Some(v) => v
      case None => default
    }
  }

  datatype Result<+R, +E> = Success(value: R) | Failure(error: E)

  /** A result that carries no value on success, like `StorageResult<void>`. */
  datatype Outcome<+E> = Pass | Fail(error: E)
}
