/** Option and Result types: a C# reference that may be null, and an operation that may throw. */
module Wrappers {

  /** A nullable reference or nullable value: `None` is C#'s null. */
  datatype Option<+T> = None | Some(value: T) {
    function GetOr(default: T): T {
      match this
      case Some(v) => v
      case None => default
    }
  }

  /** The .NET exception types that the modelled code throws. */
  datatype Error =
    | ArgumentException            // unknown enum value, negative factor, empty collection
    | ArgumentOutOfRangeException  // a string range outside the string
    | ArgumentNullException        // a required argument is null

  /** The outcome of an operation that either returns a value or throws. */
  datatype Result<+T> = Ok(value: T) | Err(error: Error)
}
