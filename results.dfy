/** Failure-carrying results, used for the controller's exceptions and for
    an upstream call that may or may not produce a body. */
module Results {

  datatype Option<+T> = None | Some(value: T)

  datatype Result<+R, +E> = Success(value: R) | Failure(error: E)
}
