/** The two result shapes the models share: an optional value for Python's `None`,
    and a value-or-error for a call that may raise. */
module Outcomes {
  datatype Option<+T> = None | Some(value: T)

  datatype Result<+T, +E> = Ok(value: T) | Err(error: E)
}
