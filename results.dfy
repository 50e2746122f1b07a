/** Optional values and the success-or-exception outcome of a call. */
module Results {

  datatype Option<+T> = None | Some(value: T)

  /** `Failure` stands for a Python exception raised by the call. */
  datatype Result<+T, +E> = Success(value: T) | Failure(error: E)
}
