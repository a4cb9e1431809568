/** Optional values, results and the Python exceptions the core raises. */
module Wrappers {

  datatype Option<T> = None | Some(value: T)
  {
    function GetOr(default: T): T
    {
      match this
      case None => default
      case Some(v) => v
    }
  }

  /**
   * The exceptions the modelled code raises or lets escape.  Only the
   * messages the code builds itself (and that are later read back, as in
   * the port check) are kept.
   */
  datatype Error =
    | ValueError(msg: string)
    | KeyError(msg: string)
    | TypeError
    | AttributeError
    | IndexError
    | NotImplementedError
    | FileExistsError
    | NotADirectoryError

  datatype Result<T> = Ok(value: T) | Err(error: Error)
  {
    predicate IsFailure() { Err? }

    function PropagateFailure<U>(): Result<U>
      requires Err?
    {
      Err(error)
    }

    function Extract(): T
      requires Ok?
    {
      value
    }
  }

  /** The outcome of a call that returns nothing but may raise. */
  datatype Outcome = Pass | Fail(error: Error)
  {
    predicate IsFailure() { Fail? }

    function PropagateFailure(): Outcome
      requires Fail?
    {
      this
    }
  }

  /**
   * What a generator produces when it is run to the end: the items it
   * yields, then the exception that stopped it, if any.
   */
  datatype Stream<T> = Stream(items: seq<T>, failure: Option<Error>)
}
