/** Option and Result, with the Python exceptions the pipeline can raise as the error side. */
module Wrappers {

  datatype Option<+T> = None | Some(value: T) {
    predicate IsFailure() { None? }

    function PropagateFailure<U>(): Option<U>
      requires None?
    {
      None
    }

    function Extract(): T
      requires Some?
    {
      value
    }

    function GetOr(default: T): T {
      match this
      case Some(v) => v
      case None => default
    }
  }

  /** The exception kinds the modelled code raises or propagates. */
  datatype PyError =
    | ValueError(msg: string)
    | TypeError(msg: string)
    | AttributeError(msg: string)
    | KeyError(key: string)
    | ZeroDivisionError
    | JsonDecodeError(msg: string)
    /** the model backend gave no reply (network failure after the client's own retries) */
    | BackendError
    /** the loop never exits: the program hangs instead of returning or raising */
    | Diverges

  datatype Result<+T> = Ok(value: T) | Err(error: PyError) {
    predicate IsFailure() { Err? }

    function PropagateFailure<U>(): Result<U>
      requires Err?
    {
      Err(error)
    }

    function Extract(): T
      requires Ok?
    {
      value
    }
  }

  /** Succeeds exactly when `cond` holds; used as `:- Need(c, e)`. */
  function Need(cond: bool, e: PyError): (r: Result<()>)
    ensures r.Ok? <==> cond
  {
    if cond then Ok(()) else Err(e)
  }
}
