/** Shared value types: an optional value, a result that carries either a
    value or a Python exception, and the Python exceptions the client can
    raise. */
module Common {

  datatype Option<+T> = None | Some(value: T)

  datatype Result<+T, +E> = Success(value: T) | Failure(error: E)

  /** The Python exceptions that the modelled code raises (their message
      texts are not modelled). */
  datatype PyError =
    | ValueError         // int() of a non-integer string, or 'set' without a value
    | ArgumentTypeError  // a percent value outside [0, 100]
    | KeyError           // a (target, command) pair missing from the command table
    | AttributeError     // an argument namespace without the attribute the mode reads
    | IndexError         // an endpoint string without ':'
    | NameError          // an identifier that was never bound
}
