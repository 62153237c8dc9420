/** Success-or-error values for operations that raise in the Python code,
    and optional arguments. */
module Wrappers {

  datatype Option<+T> = None | Some(value: T)

  datatype Result<+T, +E> = Ok(value: T) | Err(error: E)

  /** The outcome of an operation that updates an object in place. */
  datatype Outcome<+E> = Pass | Fail(error: E)
}
