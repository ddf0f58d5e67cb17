// Optional values (SQL NULL, absent parameters) and outcomes that can fail.
module Wrappers {
  datatype Option<+T> = None | Some(value: T)

  datatype Result<+T, +E> = Ok(value: T) | Err(error: E)
}
