/** Failure-compatible wrappers used across the model: Swift optionals become
    Option, Swift's Result becomes Result, and a completion that only reports
    success or an error becomes Outcome. */
module Wrappers {

  datatype Option<+T> = None | Some(value: T) {
    /** Swift's `x ?? default`. */
    function GetOr(default: T): T {
      match this
      case Some(v) => v
      case None => default
    }
  }

  datatype Result<+R, +E> = Success(value: R) | Failure(error: E)

  /** A completion that carries no value: `Pass`, or `Fail` with an error. */
  datatype Outcome<+E> = Pass | Fail(error: E)
}
