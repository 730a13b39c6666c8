/** Small value wrappers shared by every module: an optional value, the Python
    exceptions that the modelled code lets escape, and a result that is either a
    value or one of those exceptions. */
module Wrappers {

  /** An octet, the element type of Python's `bytes`. */
  newtype byte = x: int | 0 <= x < 256

  datatype Option<+T> = None | Some(value: T)

  /** The exception classes that the modelled code raises or lets propagate. */
  datatype Exception =
    | KeyError        // a missing dictionary key
    | TypeError       // an operator applied to a value of the wrong Python type
    | AttributeError  // a method called on a value that does not have it (e.g. `None.dict()`)
    | ValueError      // an explicit `raise ValueError(...)` of the source
    | ValidationError // pydantic rejected a payload
    | RuntimeError    // a thread started twice

  /** Either a value or the exception that was raised instead. */
  datatype Result<+T> = Ok(value: T) | Raised(exc: Exception)
}
