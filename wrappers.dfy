/** Option and Result: the model's stand-ins for Python's `None` and for a raised exception. */
module Wrappers {

  datatype Option<+T> = None | Some(value: T)

  /** `Failure(e)` stands for an exception whose `str()` is `e`. */
  datatype Result<+R, +E> = Success(value: R) | Failure(error: E)
}
