/** Success/failure wrappers used by the loaders. */
module Results {

  /** A value that may be absent (a file that cannot be opened, a missing class feature). */
  datatype Option<T> = None | Some(value: T)

  /** The outcome of an operation that can fail with an error of type E. */
  datatype Result<T, E> = Success(value: T) | Failure(error: E)
}
