/** The usual option and result datatypes; both work with `:-`. */
module Wrappers {

  datatype Option<+T> = None | Some(value: T) {
    predicate IsFailure() { None? }

    function PropagateFailure<U>(): Option<U>
      requires None?
    {
      None
    }

    function Extract(): T
      requires Some?
    {
      value
    }
  }

  /** The kinds of `crate::error::Error` that the modelled operations return. */
  datatype Error =
    | HashMismatch
    | SignatureInvalid
    | InvalidKey
    | PolicyDenied
    | Evaluator
    | LedgerError
    | NotFound(id: string)
    | Json
    | Host

  datatype Result<+T> = Ok(value: T) | Err(error: Error) {
    predicate IsFailure() { Err? }

    function PropagateFailure<U>(): Result<U>
      requires Err?
    {
      Err(error)
    }

    function Extract(): T
      requires Ok?
    {
      value
    }
  }
}
