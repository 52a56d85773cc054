/** Optional values and the outcomes of operations that may throw. */
module Wrappers {

  /** A C# nullable reference or nullable value: `null` is `None`. */
  datatype Option<+T> = None | Some(value: T)

  /** The exceptions thrown by the modelled code, one constructor per exception class. */
  datatype Error =
    | ArgumentNull        // System.ArgumentNullException
    | ArgumentOutOfRange  // System.ArgumentOutOfRangeException
    | EntityNotFound      // ClimbEdge.Domain.Exceptions.EntityNotFoundException
    | EntityLocked        // ClimbEdge.Domain.Exceptions.EntityLockedException
    | KeyNotFound         // System.Collections.Generic.KeyNotFoundException
    | DivideByZero        // System.DivideByZeroException
    | InvalidOperation    // System.InvalidOperationException

  /** An operation that returns a value or throws. */
  datatype Result<+T> = Ok(value: T) | Fail(error: Error)

  /** An operation that returns nothing (a plain `Task`) or throws. */
  datatype Outcome = Done | Failed(error: Error)

  /** `x ?? ""` for a nullable string; C# string interpolation and `+` print null as "". */
  function OrEmpty(s: Option<string>): string
  {
    match s
    case None => ""
    case Some(v) => v
  }
}
