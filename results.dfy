/** Option and Result values used for the repositories' "not found" failures and for
    fields that may be absent from a request. */
module Results {

  datatype Option<+T> = None | Some(value: T)

  /** A repository call either returns its value or fails with an error it would throw. */
  datatype Result<+T, +E> = Success(value: T) | Failure(error: E)
}
