/** Optional values and error-carrying results, used for Python's `None` and for raised exceptions. */
module Wrappers {
  datatype Option<T> = None | Some(value: T)

  /** The error classes the modelled code raises. */
  datatype Error = ValueError | RuntimeError | IndexError | ZeroDivisionError | IOError | TypeError | EOFError

  datatype Result<T> = Ok(value: T) | Err(error: Error)
}
