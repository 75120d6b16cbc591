/** Optional values and success/failure results, used for `None` fields and for exceptions. */
module Wrappers {

  datatype Option<+T> = None | Some(value: T)

  /** The outcome of a Python call: a value, or an exception that propagates to the caller. */
  datatype Result<+T, +E> = Success(value: T) | Failure(error: E)
}
