/** Option and Result, the two sum types every layer of the domain returns. */
module Wrappers {

  datatype Option<+T> = None | Some(value: T)

  /** The `Result<T, E>` of the domain: a value, or an error that the caller is handed verbatim. */
  datatype Result<+T, +E> = Ok(value: T) | Err(error: E)

  /** The unit value, for operations that return `Result<(), E>`. */
  type Unit = ()
}
