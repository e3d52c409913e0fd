/** Small value types shared by the modules of this model. */
module Common {

  /** Python's `None` or a present value. */
  datatype Option<+T> = None | Some(value: T)

  /** The outcome of a call that may raise: the returned value, or the raised error. */
  datatype Result<+T, +E> = Success(value: T) | Failure(error: E)
}
