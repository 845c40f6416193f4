/** Small types every module shares. */
module Base {

  datatype Option<+T> = None | Some(value: T)

  datatype Result<+T, +E> = Success(value: T) | Failure(error: E)

  /** Milliseconds on the one clock all processes read. */
  type Time = nat
}
