/** Option and Result values shared by the user controller and the chat page. */
module Wrappers {

  datatype Option<+T> = None | Some(value: T)

  /** A handler's answer: a value, or the error message the handler sends back. */
  datatype Result<+T> = Ok(value: T) | Err(msg: string)
}
