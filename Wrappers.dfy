/** Failure-carrying values shared by every module of the model. */
module Wrappers {

  /** A value that may be missing: a JavaScript `NaN` from `parseFloat`, an
      absent query parameter or an unset environment variable. */
  datatype Option<+T> = None | Some(value: T)

  /** The outcome of a request handler: the computed value, or the error the
      handler reports. */
  datatype Result<+T, +E> = Ok(value: T) | Err(error: E)
}
