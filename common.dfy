/** Failure-carrying wrappers shared by every module of the model. */
module Common {

  datatype Option<+T> = None | Some(value: T)

  /** The value-or-error pair most Go functions of the queue return. */
  datatype Result<+T, +E> = Success(value: T) | Failure(error: E)
}
