/** Option, Result and the Python exceptions the modelled code raises. */
module Wrappers {

  datatype Option<+T> = None | Some(value: T)

  /** A Python exception, by class. Messages are kept where the code fixes them. */
  datatype Exception =
    | ValueError(message: string)
    /** `TimeoutError(f"... after {timeout} seconds.")`: the timeout it reports. */
    | TimeoutError(timeout: int)
    /** `choices[0]` on an empty list. */
    | IndexError
    /** Anything the agent runtime raises while running a query. */
    | RuntimeFailure(message: string)
    /** Rich's `MarkupError`: the console could not parse the markup of the text it was asked to print. */
    | MarkupError(markup: string)

  /** A value, or the exception a Python call raised instead. */
  datatype Result<+T> = Ok(value: T) | Err(error: Exception)
}
