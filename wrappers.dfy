/** Option and Result, used for the error paths of the query builder. */
module Wrappers {

  datatype Option<+T> = None | Some(value: T)

  /** Either a value or the error the Go code would have returned (or panicked with). */
  datatype Result<+R, +E> = Ok(value: R) | Err(error: E)
}
