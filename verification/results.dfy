/** Optional values and success/failure results used across the renderer model. */
module Results {

  /** A value that may be absent (a `std::optional`, or a null pointer). */
  datatype Option<T> = None | Some(value: T)

  /** The outcome of an operation that may throw: `Err` stands for the exception. */
  datatype Result<T, E> = Ok(value: T) | Err(error: E)
}
