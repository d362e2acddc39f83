/** Failure-carrying return values used throughout the model: Python's `None`
    returns become `Option`, and the pipeline stages that can fail for a
    stated reason return a `Result`. */
module Wrappers {

  /** A value that may be absent, as a Python function that may return `None`. */
  datatype Option<+T> = None | Some(value: T)

  /** A successful value, or the reason a stage failed. */
  datatype Result<+R, +E> = Success(value: R) | Failure(error: E)
}
