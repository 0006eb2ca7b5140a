/** Optional values and results: the model's stand-in for Go's nil pointers
    and for fatal errors that end the run. */
module Wrappers {

  /** A value that may be absent: `None` is a nil pointer of the source. */
  datatype Option<+T> = None | Some(value: T)

  /** The outcome of a step that either succeeds or ends the run with a diagnostic. */
  datatype Result<+R> = Success(value: R) | Failure(error: string)
}
