/** Failure-carrying values: the model's replacement for Python's None and raised exceptions. */
module Results {

  /** A value or Python's None. */
  datatype Option<+T> = None | Some(value: T)

  /** The value an operation returns, or the exception it raises. */
  datatype Result<+T, +E> = Success(value: T) | Failure(error: E)

  /** The outcome of an operation that returns nothing useful but may raise. */
  datatype Outcome<+E> = Pass | Fail(error: E)
}
