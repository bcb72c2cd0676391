/** Failure-compatible results for the operations that throw in the renderer. */
module Wrappers {

  /** The one error the staging core raises: a bounding-box style tag it does not know. */
  datatype Error = InvalidShapeError

  /** A value, or the error that prevented it. */
  datatype Result<T> = Ok(value: T) | Err(error: Error)

  /** Success, or the error that aborted an operation without a value. */
  datatype Outcome = Pass | Fail(error: Error)
}
