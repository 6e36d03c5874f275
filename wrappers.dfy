/** Option and Result types, and the Python exceptions the modelled code raises. */
module Wrappers {

  datatype Option<+T> = None | Some(value: T)

  /** The exception classes raised by the modelled code; a bare `raise Exception(...)` is `Exception`. */
  datatype Error =
    | ValueError(msg: string)
    | KeyError(key: string)
    | TypeError(msg: string)
    | AttributeError(name: string)
    | IndexError(msg: string)
    | FileNotFoundError(path: seq<string>)
    | FileExistsError(path: seq<string>)
    | IsADirectoryError(path: seq<string>)
    | NotADirectoryError(path: seq<string>)
    | JsonDecodeError(path: seq<string>)
    | NotImplementedError(msg: string)
    | AssertionError(msg: string)
    | UnboundLocalError(name: string)
    | Exception(msg: string)

  datatype Result<+T> = Ok(value: T) | Err(error: Error) {
    predicate IsFailure() { Err? }
    function PropagateFailure<U>(): Result<U>
      requires Err?
    {
      Err(error)
    }
    function Extract(): T
      requires Ok?
    {
      value
    }
  }

  /** The result of an operation that returns nothing but may raise. */
  datatype Outcome = Pass | Fail(error: Error) {
    predicate IsFailure() { Fail? }
    function PropagateFailure<U>(): Result<U>
      requires Fail?
    {
      Err(error)
    }
  }
}
