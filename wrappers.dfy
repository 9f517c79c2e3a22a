/** Optional values, fallible results and the Python exceptions the modelled code raises. */
module Wrappers {

  datatype Option<+T> = None | Some(value: T)

  /** The exception classes raised by the modelled code (built-in Python exceptions). */
  datatype Exception =
    | ValueError
    | AssertionError
    | TypeError
    | AttributeError
    | IndexError
    | KeyError
    | FileNotFoundError
    | NotADirectoryError
    | FileExistsError

  /** A call that either returns a value or raises an exception. */
  datatype Result<+T> = Ok(value: T) | Err(exception: Exception)
}
