/** Option and Result types, and the Python exceptions the modelled code can raise. */
module Wrappers {

  datatype Option<+T> = None | Some(value: T)

  /** The exceptions the modelled code can raise. */
  datatype PyError =
    | KeyError(key: string)        // a required key is missing
    | ValueError(what: string)     // a value of the right type but an invalid spelling
    | TypeError(what: string)      // a value of the wrong JSON type
    | IndexError(index: int)       // a list index outside the list

  datatype Result<+T> = Success(value: T) | Failure(error: PyError)
}
