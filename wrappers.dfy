/** Option and Result, the two failure-carrying wrappers the rest of the model uses. */
module Wrappers {

  datatype Option<+T> = None | Some(value: T)

  /** A value, or the message of the error that replaced it. */
  datatype Result<+T> = Ok(value: T) | Err(message: string)
}
