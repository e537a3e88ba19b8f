/** Small wrapper datatypes shared by every module of the model. */
module Common {

  /** A value that may be absent: a missing JSON field, a regular expression that did not match. */
  datatype Option<+T> = None | Some(value: T) {
    function GetOr(default: T): T {
      match this
      case Some(v) => v
      case None => default
    }
  }

  /** The outcome of an operation that either yields a value or throws an error carrying a message. */
  datatype Result<+T> = Ok(value: T) | Failed(message: string)
}
