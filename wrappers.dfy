/** Failure-carrying values.  The source signals failure with Python exceptions that
    nothing in the core catches; the model returns them as `Err` and passes them on. */
module Wrappers {

  datatype Option<+T> = None | Some(value: T)

  /** `Err(error)` stands for an exception raised by one of the external services,
      `error` being its message. */
  datatype Result<+T> = Ok(value: T) | Err(error: string)
}
