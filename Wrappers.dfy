/** Option and Result values shared by the other modules. */
module Wrappers {

  datatype Option<+T> = None | Some(value: T)

  /** An operation that either yields a value or raises an exception carrying a message. */
  datatype Result<+T> = Ok(value: T) | Err(message: string)
}
