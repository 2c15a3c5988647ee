/** Option and Result: Python's `None` and raised exceptions made explicit. */
module Wrappers {

  datatype Option<+T> = None | Some(value: T)

  /** `Failure` stands for an exception the Python code raises and does not catch. */
  datatype Result<+R, +E> = Success(value: R) | Failure(error: E)
}
