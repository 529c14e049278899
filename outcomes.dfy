/** Optional values, results, and the exceptions the register layer raises. */
module Outcomes {

  datatype Option<+T> = None | Some(value: T)

  /** The three exceptions servode.py raises while handling a register
      operation: a `KeyError` for a name missing from the control table, an
      `IOError` for a write to a read-only register and a `ValueError` for an
      argument out of range. */
  datatype Error =
    | UnknownRegister(name: string)
    | ReadOnlyRegister(name: string)
    | InvalidArgument(value: int)

  /** The outcome of an operation that either returns a value or raises. */
  datatype Result<+T> = Ok(value: T) | Err(error: Error) {

    predicate IsFailure() {
      Err?
    }

    function PropagateFailure<U>(): Result<U>
      requires Err?
    {
      Err(error)
    }

    function Extract(): T
      requires Ok?
    {
      value
    }
  }
}
