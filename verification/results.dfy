/** Failure-carrying datatypes standing in for Java's `null` returns and exceptions. */
module Results {

  /** A value that may be absent: `None` plays the part of a Java `null`. */
  datatype Option<+T> = None | Some(value: T)

  /** A computation that either succeeds or fails with an error value (a thrown exception). */
  datatype Result<+T, +E> = Ok(value: T) | Err(error: E) {

    /** Forgets the error: the value if there is one. */
    function ToOption(): Option<T> {
      match this
      case Ok(v) => Some(v)
      case Err(_) => None
    }
  }
}
