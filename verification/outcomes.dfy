/** Optional values, the exceptions the modelled Python code can raise, and a
    failure-compatible result type so that raising code reads as `:-`. */
module Outcomes {

  datatype Option<+T> = None | Some(value: T)

  /** The Python exception classes that the modelled code raises or catches. */
  datatype Exc =
    | ValueError
    | RuntimeError
    | TypeError
    | AttributeError
    | AssertionError
    | IndexError
    | KeyError
      /** Any other exception raised by a collaborator (for instance an OSError
          from a source lookup); it is never caught by the modelled code. */
    | OtherError(className: string)

  /** Either the value a call returned or the exception it raised. */
  datatype Result<+T> = Ok(value: T) | Err(error: Exc) {

    predicate IsFailure() {
      Err?
    }

    function PropagateFailure<U>(): Result<U>
      requires Err?
    {
      Err(error)
    }

    function Extract(): T
      requires Ok?
    {
      value
    }
  }
}
