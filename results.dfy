/** Outcomes of operations that, in the library, either return a value,
    return None, or raise one of Python's built-in exceptions. */
module Results {

  /** Python's `None` or a value. */
  datatype Option<+T> = None | Some(value: T)

  /** The exception classes the modelled code raises, explicitly or through a
      failed index, unpack or key lookup. */
  datatype PyError =
    | TypeError       // wrong kind of argument (e.g. a non-ethernet interface name)
    | ValueError      // invalid value (a role outside the allowed list, a bad unpack)
    | IndexError      // `parts[i]` past the end of a split result
    | KeyError        // dictionary lookup of a missing key
    | NotImplemented  // a stub that always raises NotImplementedError

  /** Either the value the Python code returns or the exception it raises. */
  datatype Result<+T> = Ok(value: T) | Err(error: PyError)
}
