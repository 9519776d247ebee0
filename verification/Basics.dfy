// Shared result types.
module Basics {
  datatype Option<+T> = None | Some(value: T)

  // A refused operation names the error the system reports.
  datatype Result<+T, +E> = Ok(value: T) | Err(error: E)
}
