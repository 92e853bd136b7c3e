/** Option and Result datatypes used by the model. */
module Results {

  /** A value that may be absent: here, a Python global that may be unbound. */
  datatype Option<+T> = None | Some(value: T)

  /** Either a computed value or the exception a Python call would raise. */
  datatype Result<+T, +E> = Success(value: T) | Failure(error: E)
}
