/** Option and Result datatypes shared by the other modules. */
module Wrappers {

  datatype Option<T> = None | Some(value: T)

  /** A value, or the message of the error the hook throws instead. */
  datatype Result<T> = Ok(value: T) | Err(error: string)
}
