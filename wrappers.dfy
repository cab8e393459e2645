/** Result type for the one operation of the core that can fail (sketch construction). */
module Wrappers {

  datatype Result<+T, +E> = Ok(value: T) | Err(error: E)
}
