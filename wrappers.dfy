// Option and Result types shared by the whole model. Python's exceptions are
// modelled as the `Err` side of a `Result`, naming the exception class raised.
module Wrappers {

  datatype Option<+T> = None | Some(value: T)
  {
    function GetOr(default: T): T
    {
      match this
      case Some(v) => v
      case None => default
    }
  }

  /** The Python exception classes the core raises or catches. */
  datatype Error =
    | TypeError
    | KeyError
    | AttributeError
    | IndexError
    | ValueError
    | RegexError   // `re.error`, raised when a pattern compiles to a malformed regex

  datatype Result<+T> = Ok(value: T) | Err(error: Error)
  {
    predicate IsOk() { Ok? }
  }
}
