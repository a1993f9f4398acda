/**
 * Option and Result, used for the values the source leaves absent
 * (`None`, `null`, a missing key) and for the exceptions it raises.
 */
module Wrappers {
  datatype Option<T> = None | Some(value: T)

  datatype Result<T, E> = Ok(value: T) | Err(error: E)
}
