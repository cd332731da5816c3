/** The two result shapes the model returns: Python's `None`-or-value and
    "a value or the reason the handler gave up". */
module Wrappers {

  datatype Option<+T> = None | Some(value: T)

  datatype Result<+T, +E> = Ok(value: T) | Err(error: E)
}
