/** Value types shared by the parser and the lifecycle model. */
module Base {

  datatype Option<+T> = None | Some(value: T)

  /** A thrown JavaScript error, identified by its message. */
  datatype Error = Error(message: string)

  /** The value of a call that either returns or throws. */
  datatype Result<+T> = Success(value: T) | Failure(error: Error)
}
