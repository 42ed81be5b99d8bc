/** Optional values and success/failure results used by the route handlers. */
module Wrappers {

  /** A value that may be absent (a missing request field or query parameter). */
  datatype Option<+T> = None | Some(value: T)

  /** Either a successful value or an HTTP error status. */
  datatype Result<+R> = Success(value: R) | Failure(status: int)
}
