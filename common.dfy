/** Option and Result types shared by the modules. */
module Common {

  /** A value that may be absent (Python's `None` or an object). */
  datatype Option<T> = None | Some(value: T)

  /** The outcome of an operation that may raise an error. */
  datatype Result<T, E> = Success(value: T) | Failure(error: E)
}
