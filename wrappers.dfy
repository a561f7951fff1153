/** Option and Result, used for Python's `None` and for raised exceptions. */
module Wrappers {

  /** `None` or a present value, as Python's `Optional[T]`. */
  datatype Option<+T> = None | Some(value: T)

  /** The outcome of an operation that either returns a value or raises an error. */
  datatype Result<+R, +E> = Ok(value: R) | Err(error: E)
}
