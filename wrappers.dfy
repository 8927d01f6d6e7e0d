/** Small result types shared by every module of the model. */
module Wrappers {

  /** A value that may be absent: Python's None, or a key missing from a JSON object. */
  datatype Option<T> = None | Some(value: T)

  /** How a call ends: it returns a value, or an exception that is not a transport or
      HTTP-status error (a KeyError, say) escapes it and unwinds the caller. */
  datatype Outcome<T> = Returned(value: T) | Raised
}
