/** Values shared by both versions of the task module. */
module Common {

  /** Python's `X | None`. */
  datatype Option<T> = None | Some(value: T)

  /** Identity of a scheduled callable (`func`); the callable itself is not modelled. */
  type FuncId = nat

  /** Identity of an `on_error` handler; handlers are compared by identity only. */
  type HandlerId = nat

  /** An argument or return value, opaque to the scheduler. */
  type Value = int

  /** A raised `Exception`: its class name and its message. */
  datatype Exception = Exception(kind: string, message: string)

  /** What awaiting a callable produces: its return value, or the exception it raised. */
  datatype Outcome = Ok(value: Value) | Err(error: Exception)
}
