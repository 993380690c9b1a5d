/** Option and Result: absent values (`null`, `undefined`) and thrown errors of the app. */
module Wrappers {

  datatype Option<+T> = None | Some(value: T)

  /** A call that either returns a value or throws an `Error` with a message. */
  datatype Result<+T> = Ok(value: T) | Err(error: string)
}
