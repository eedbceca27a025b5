/** Small value types shared by the models: optional values, results, and the
    success or failure of a call into code outside the model. */
module Wrappers {

  datatype Option<+T> = None | Some(value: T)

  /** A value, or the error a call returned instead. */
  datatype Result<+T, +E> = Ok(value: T) | Err(error: E)

  /** The outcome of an external call that returns only an error: the call
      succeeded, or it failed and its error message is `cause`. */
  datatype Step = Pass | Fail(cause: string)
}
