/** Outcome of an operation that, in the original program, either returns a
    value or raises an exception. */
module Results {
  datatype Result<+T, +E> = Success(value: T) | Failure(error: E)
}
