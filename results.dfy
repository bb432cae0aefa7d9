/** Failure-carrying results, standing in for the exceptions the cart and the
    catalog throw. */
module Results {
  datatype Option<+T> = None | Some(value: T)

  datatype Result<+T, +E> = Success(value: T) | Failure(error: E)
}
