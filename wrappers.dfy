/** Option and Result values used where the PHP code returns null/false or throws. */
module Wrappers {

  datatype Option<+T> = None | Some(value: T) {
    /** The value, or the given default for None (PHP's coercion of null). */
    function GetOr(default: T): T {
      match this
      case Some(v) => v
      case None => default
    }
  }

  datatype Result<+T, +E> = Success(value: T) | Failure(error: E)
}
