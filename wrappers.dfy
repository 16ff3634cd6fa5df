/** Option and Result: the "absent field" and "failed call" wrappers used across the model. */
module Wrappers {

  /** A field of a request that may be `undefined`. */
  datatype Option<+T> = None | Some(value: T) {

    /** The value when present, else `default` (a JavaScript destructuring default). */
    function GetOr(default: T): T {
      match this
      case Some(v) => v
      case None => default
    }
  }

  /** The outcome of a call that may throw: `Err` carries the error message. */
  datatype Result<+T> = Ok(value: T) | Err(error: string) {

    predicate IsFailure() {
      Err?
    }

    function PropagateFailure<U>(): Result<U>
      requires Err?
    {
      Err(error)
    }

    function Extract(): T
      requires Ok?
    {
      value
    }
  }
}
