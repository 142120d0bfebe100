/** Option and Result types shared by the other modules. */
module Wrappers {

  /** A value that may be absent: a null pointer or an empty shared pointer. */
  datatype Option<+T> = None | Some(value: T)

  /** Either a value or the error the source raises as an exception. */
  datatype Result<+T, +E> = Ok(value: T) | Err(error: E)
}
