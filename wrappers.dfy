/** Optional values, results carrying an error message, and the shape of an external decoder. */
module Wrappers {

  /** A Go pointer that may be nil, or a value that may be absent. */
  datatype Option<+T> = None | Some(value: T)

  /** A Go `(T, error)` pair: either a value or the error's message. */
  datatype Result<+T> = Ok(value: T) | Err(error: string)

  /** An external decoder (YAML or JSON unmarshalling) seen only through its verdict on some input. */
  type Decoder<!T> = string -> Result<T>
}
