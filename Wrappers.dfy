/** Result type for the query entry points: a value, or the reason the query was refused. */
module Wrappers {
  datatype Result<T, E> = Ok(value: T) | Err(error: E)
}
