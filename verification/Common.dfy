/** Small types every component shares. */
module Common {

  datatype Option<+T> = None | Some(value: T)

  datatype Result<+T, +E> = Success(value: T) | Failure(error: E)

  /** Clock readings: microseconds for wall clocks, any unit for monotonic ones. */
  type Time = int
}
