/** Optional values and error returns shared by the components. */
module Wrappers {

  /** A value that may be absent: JavaScript's `null` or an empty input. */
  datatype Option<+T> = None | Some(value: T)

  /** The outcome of a validation: the accepted value or the reason it was refused. */
  datatype Result<+R, +E> = Success(value: R) | Failure(error: E)
}
