/** Failure-compatible wrappers shared by every module of the model. */
module Wrappers {

  /** A value that may be absent; stands for a C# reference that may be null. */
  datatype Option<+T> = None | Some(value: T) {
    function GetOr(default: T): T {
      match this
      case Some(v) => v
      case None => default
    }
  }

  /** The result of an operation that either returns a value or throws. */
  datatype Result<+T, +E> = Ok(value: T) | Err(error: E)

  /** What an invoked delegate (a job body, a validator, a handler) does when it is called:
      it returns a value, or it throws. */
  datatype Outcome<+T> = Returned(value: T) | Threw

  /** The kinds of exception the library raises towards its callers. */
  datatype Failure =
    | ArgumentNull(param: string)   // ArgumentNullException
    | ArgumentOutOfRange            // ArgumentOutOfRangeException
    | DuplicateArgument             // ArgumentException (a key that already exists)
    | KeyNotFound                   // KeyNotFoundException
    | NullReference                 // NullReferenceException (a member read through null)
    | InvalidCast                   // InvalidCastException
    | InvalidOperation              // InvalidOperationException (starting a task already cancelled)
}
