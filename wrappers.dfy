/** Optional values and the exceptions the serialization core throws. */
module Wrappers {

  /** A value that may be absent: C#'s `null` for a reference or a nullable field. */
  datatype Option<+T> = None | Some(value: T)

  /** The .NET exceptions raised on the encode and decode paths. */
  datatype Exception =
    | NotSupportedException(message: string)
    | NotImplementedException(message: string)
    | InvalidOperationException(message: string)

  /** The outcome of an operation that either returns a value or throws. */
  datatype Result<+T> = Success(value: T) | Failure(error: Exception)
}
