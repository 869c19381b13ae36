/** Small value types shared by every module of the model. */
module Common {

  /** A value that may be absent (Python's `None`). */
  datatype Option<+T> = None | Some(value: T)

  /** The outcome of an operation that may raise an error instead of returning. */
  datatype Result<+T, +E> = Success(value: T) | Failure(error: E)

  /**
   * What a polling loop sees at one of its ticks: whether the system was
   * operational at that moment, and what the hardware would answer if it
   * were read then.
   */
  datatype Tick<+T> = Tick(operational: bool, reading: T)
}
