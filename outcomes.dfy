/** Values that stand for the Python exceptions the modelled code raises,
    and the Option/Result wrappers used to return them. */
module Outcomes {

  /** The exception classes raised on the modelled paths, each with its message. */
  datatype Error =
    | KeyError(message: string)
    | ValueError(message: string)
    | TypeError(message: string)
    | IndexError(message: string)

  datatype Option<+T> = None | Some(value: T)

  /** Either the value a call returns or the exception it raises. */
  datatype Result<+T> = Ok(value: T) | Err(error: Error) {
    predicate IsFailure() {
      Err?
    }

    function PropagateFailure<U>(): Result<U>
      requires Err?
    {
      Err(error)
    }

    function Extract(): T
      requires Ok?
    {
      value
    }
  }
}
