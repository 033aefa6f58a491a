/**
 * How a call into the configuration layer ends.
 *
 * The Python code has no result type: a getter either returns a value, or
 * it logs a message and terminates the process (`Logfile.abort`), or it
 * raises an exception that a caller may catch. The three ways out are
 * kept apart here because the domain accessors catch exactly one of them.
 */
module Outcomes {

  datatype Option<+T> = None | Some(value: T)

  datatype Outcome<+T> =
    | Ok(value: T)
      /** the message was logged with `Logfile.error`, then the process was aborted */
    | Abort(msg: string)
      /** a Python `TypeError` was raised */
    | TypeErr
      /** a Python `AssertionError` was raised */
    | AssertErr
  {
    predicate IsFailure() {
      !Ok?
    }

    function PropagateFailure<U>(): (r: Outcome<U>)
      requires !Ok?
    {
      if Abort? then Abort(msg) else if TypeErr? then TypeErr else AssertErr
    }

    function Extract(): T
      requires Ok?
    {
      value
    }
  }
}
