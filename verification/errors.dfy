/**
 The exceptions the reconnecting runner can raise, a Result type that
 carries either a value or one of them, and an Option type for Python's
 `None` defaults.
 */
module Errors {

  /** The Python exceptions raised by the reconnect layer. */
  datatype Error =
      /** Raised by an operation a strategy class does not override. */
    | NotImplemented(operation: string)
      /** The `RuntimeError` the runner constructor raises on an `ssl`
          argument that contradicts the URL scheme. */
    | SslConflict

  datatype Option<+T> = None | Some(value: T)

  datatype Result<+T> = Ok(value: T) | Err(error: Error) {

    predicate IsFailure() {
      Err?
    }

    function PropagateFailure<U>(): Result<U>
      requires Err?
    {
      Err(error)
    }

    function Extract(): T
      requires Ok?
    {
      value
    }
  }
}
