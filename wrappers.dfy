/** Optional values and success-or-error results, the two shapes the Swift code
    uses for `T?` and `Result<T, E>` / `throws`. */
module Wrappers {

  datatype Option<+T> = None | Some(value: T) {
    /** Swift's `??`: the wrapped value, or `default` when nil. */
    function GetOr(default: T): T {
      match this
      case Some(v) => v
      case None => default
    }
  }

  datatype Result<+T, +E> = Success(value: T) | Failure(error: E)

  /** The empty tuple `()`, the payload of `Result<Void, _>`. */
  datatype Unit = Unit
}
