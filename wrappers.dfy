/** Optional values and results with an error: Swift's `T?` and `throws`. */
module Wrappers {

  /** Swift's `Optional<T>`: `nil` is `None`. */
  datatype Option<+T> = None | Some(value: T) {

    /** Swift's `??` operator: the held value, or the fallback when there is none. */
    function GetOr(default: T): T {
      match this
      case Some(v) => v
      case None => default
    }
  }

  /** The outcome of a Swift function that `throws`: a value, or the error thrown. */
  datatype Result<+R, +E> = Success(value: R) | Failure(error: E)
}
