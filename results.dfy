/**
  Values shared by the settings cache and the timeout notifier: an optional
  value (Java's nullable reference) and a completed future, which either
  succeeded with a value or failed with an exception of some class and a
  message.
 */
module Results {

  /** `None` stands for Java's `null`. */
  datatype Option<+T> = None | Some(value: T)

  /** The exception classes a failed future carries in this slice. */
  datatype ErrorKind =
    | PreBidException
    | InvalidRequestException
    | TimeoutException

  /** A completed `Future<T>`: `succeededFuture(value)` or `failedFuture(exception)`. */
  datatype Result<+T> =
    | Success(value: T)
    | Failure(kind: ErrorKind, message: string)
}
