/** Outcomes of the modelled Python code: an optional value, and a value or the exception raised. */
module Wrappers {

  datatype Option<T> = None | Some(value: T)

  /** The Python exceptions the modelled code raises or swallows. */
  datatype Exception =
    | KeyError            // `d[k]` on a dict without k
    | TypeError           // subscripting or iterating None, a number, ...
    | AttributeError      // `.get` or `.replace` on something that has none
    | IndexError          // `xs[0]` on an empty list
    | ValueError          // `int(s)` on a string that is no integer literal
    | UnboundLocalError   // a local read before any assignment
    | OverflowError       // a timestamp beyond the platform's range
    | OSError             // a timestamp the platform's C library rejects

  datatype Result<T> = Ok(value: T) | Raised(exc: Exception)
}
