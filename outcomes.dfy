/** Option and Result, and the Python exceptions that escape the modelled code. */
module Outcomes {

  /** Python's `None` and a present value. */
  datatype Option<+T> = None | Some(value: T)

  /** A value, or an exception raised to the caller. */
  datatype Result<+T, +E> = Success(value: T) | Failure(error: E)

  /** Whether a call returned or raised. */
  datatype Outcome = Returned | Raised(error: PyError)

  /** The exceptions that the modelled code lets propagate. */
  datatype PyError =
    | KeyError        // a reply without the expected keys
    | ValueError      // a call with too many positional arguments
    | AttributeError  // an attribute that was never set
}
