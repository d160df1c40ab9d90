/** Option and Result, the shapes the model uses for nullable values and for
    operations that either return a value or throw. */
module Wrappers {

  /** A nullable reference or an optional field: None stands for null/undefined. */
  datatype Option<+T> = None | Some(value: T) {
    /** The value, or the given default when absent (Java `orElse`, JS `x || d` on non-falsy values). */
    function GetOr(default: T): T {
      if Some? then value else default
    }
  }

  /** The outcome of an operation that returns a value or throws with a message. */
  datatype Result<+T> = Ok(value: T) | Err(error: string)

  /** An operation with no return value that may throw. */
  datatype Outcome = Done | Failed(error: string)
}
