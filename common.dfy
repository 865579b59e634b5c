/** Small failure-carrying datatypes shared by every module. */
module Common {

  /** A value that may be absent: JavaScript's `null`/`undefined`. */
  datatype Option<+T> = None | Some(value: T) {
    predicate IsFailure() { None? }

    function PropagateFailure<U>(): Option<U>
      requires None?
    {
      None
    }

    function Extract(): T
      requires Some?
    {
      value
    }
  }

  /** The outcome of an operation that may throw: `Err` carries the error. */
  datatype Result<+T, +E> = Ok(value: T) | Err(error: E)
}
