/** Option and Result: the model's stand-ins for Python's None and for raised exceptions. */
module Wrappers {

  datatype Option<+T> = None | Some(value: T)

  /** `Err(message)` is an exception whose `str(e)` is `message`. */
  datatype Result<+T, +E> = Ok(value: T) | Err(error: E)
}
