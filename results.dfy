/** Failure-carrying values shared by the agent lifecycle and the registry. */
module Results {

  /** A value that may be absent (Python's `Optional`, `None` for absence). */
  datatype Option<+T> = None | Some(value: T)

  /** The outcome of an operation that either returns a value or raises an
      exception; `Failure` carries what the exception carries. */
  datatype Result<+T, +E> = Success(value: T) | Failure(error: E)
}
