/** Outcome of an operation that either returns a value or raises an exception. */
module Results {

  datatype Result<+T, +E> = Ok(value: T) | Err(error: E)

}
