/** Values that may be missing, and results of operations that may throw. */
module Wrappers {

  datatype Option<+T> = None | Some(value: T)

  /** The exceptions that the modelled operations throw. */
  datatype Error = OutOfRange | InvalidArgument

  datatype Result<+T> = Success(value: T) | Failure(error: Error)
}
