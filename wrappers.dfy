/** Option and Result, and the Python exceptions that the modelled code raises. */
module Wrappers {

  /** An optional value; `None` also stands for Python's `None` argument. */
  datatype Option<+T> = None | Some(value: T)

  /** The exceptions the library lets escape to its caller. */
  datatype Exception =
    | IndexError           // a list was indexed past its end (an empty series)
    | NotImplementedError  // a range query on a dict-valued series

  /** Either a value or the exception that the source raises instead. */
  datatype Result<+T> = Ok(value: T) | Err(error: Exception)
}
