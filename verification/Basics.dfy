/** Optional values and results that may be an error. */
module Basics {
  datatype Option<+T> = None | Some(value: T)

  datatype Result<+T> = Ok(value: T) | Err(error: string)

  type Byte = b: nat | b < 256
}
