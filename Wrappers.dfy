/** Option and Result: absence and thrown errors of the TypeScript source, as values. */
module Wrappers {

  datatype Option<+T> = None | Some(value: T) {
    function GetOr(default: T): T {
      match this
      case Some(v) => v
      case None => default
    }
  }

  /** `Failure(message)` stands for an `Error` thrown with that message. */
  datatype Result<+R, +E> = Success(value: R) | Failure(error: E)
}
