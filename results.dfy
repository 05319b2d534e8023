/** The Option and Result datatypes used throughout the model, and the
    Python exceptions that the modelled code raises. */
module Results {

  datatype Option<+T> = None | Some(value: T)
  {
    function GetOr(default: T): T
    {
      match this
      case Some(v) => v
      case None => default
    }
  }

  datatype Result<+T, +E> = Ok(value: T) | Err(error: E)

  /** Success or failure of an operation that returns Python's `None`. */
  datatype Outcome<+E> = Pass | Fail(error: E)

  /** The exception classes the modelled code can raise. */
  datatype Error =
    | StructError  // struct.error: a buffer too short for the unpack format, or a malformed format
    | ValueError   // an enum constructed from a code it does not list, mismatched vendors, a bad UUID
    | IndexError   // a byte index past the end of a buffer
    | KeyError     // a required D-Bus property missing from the dictionary
}
