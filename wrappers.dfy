/** Failure-compatible wrappers used throughout the model: `None`/`Err`
    stand for the Python code returning None or raising. */
module Wrappers {

  datatype Option<+T> = None | Some(value: T)

  datatype Result<+T, +E> = Ok(value: T) | Err(error: E)
}
