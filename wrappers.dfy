/** Optional values and success-or-error results, shared by the camera modules. */
module Wrappers {

  /** An optional value: the camera's playback cursor is `None` when idle. */
  datatype Option<+T> = None | Some(value: T)

  /** The outcome of an operation that the source lets fail with an exception. */
  datatype Result<+T, +E> = Success(value: T) | Failure(error: E)
}
