/** Failure-carrying values shared by the REST client model: an optional value
    and a success-or-error result. */
module Results {

  datatype Option<+T> = None | Some(value: T)

  datatype Result<+T, +E> = Success(value: T) | Failure(error: E)
}
