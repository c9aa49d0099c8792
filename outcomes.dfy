/** Option and Result values used wherever the source returns None or raises. */
module Outcomes {

  datatype Option<+T> = None | Some(value: T)

  /** `Ok` carries a value, `Err` an error; an exception in the source is an `Err`. */
  datatype Result<+T, +E> = Ok(value: T) | Err(error: E)
}
