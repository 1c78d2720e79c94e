/** Option and Result: the absent value (`null`/`nil`) and the thrown error of the modelled code. */
module Wrappers {

  datatype Option<+T> = None | Some(value: T) {
    /** Nullish coalescing, `x ?? d` in TypeScript and Swift. */
    function GetOr(default: T): T {
      match this
      case Some(v) => v
      case None => default
    }
  }

  datatype Result<+R, +E> = Success(value: R) | Failure(error: E)
}
