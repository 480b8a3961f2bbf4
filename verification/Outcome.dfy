/** The two result shapes shared by every module: a value that may be absent, and
    a value or the error the source would have returned. */
module Outcome {
  datatype Option<+T> = None | Some(value: T)

  datatype Result<+T, +E> = Ok(value: T) | Err(error: E)
}
