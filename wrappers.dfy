/** Optional values and completion results, as Swift's `Optional` and `Result`. */
module Wrappers {

  datatype Option<+T> = None | Some(value: T)

  /** The value a use case hands to its completion closure. */
  datatype Result<+T, +E> = Success(value: T) | Failure(error: E)
}
