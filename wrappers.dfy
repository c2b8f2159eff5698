/** Optional values (Python's `None`) and results of computations that can raise. */
module Wrappers {

  /** A value that may be absent, as a Python `float | None` field. */
  datatype Option<+T> = None | Some(value: T)

  /** The exceptions the modelled code can raise on bad input. */
  datatype Error =
    | IndexError   // indexing past the end of a list or of a row
    | TypeError    // arithmetic on `None`

  /** The outcome of a computation that either returns a value or raises. */
  datatype Result<+T> = Ok(value: T) | Err(error: Error) {

    predicate IsFailure() {
      Err?
    }

    function PropagateFailure<U>(): Result<U>
      requires Err?
    {
      Err(error)
    }

    function Extract(): T
      requires Ok?
    {
      value
    }
  }
}
