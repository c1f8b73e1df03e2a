/** Values standing in for Java's nullable references and caught exceptions. */
module Results {

  /** A value that may be absent: Java's `null` or `Optional.empty()`. */
  datatype Option<+T> = None | Some(value: T) {
    function GetOr(default: T): T {
      match this
      case Some(v) => v
      case None => default
    }
  }

  /** The outcome of a call that may throw: the value, or the exception's message. */
  datatype Attempt<+T> = Success(value: T) | Failure(message: string)
}
