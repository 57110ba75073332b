/** Optional values, used where the analyzer may find nothing (no closing brace, no function name). */
module Wrappers {

  datatype Option<+T> = None | Some(value: T)

  /** Either a value or the reason the request was refused. */
  datatype Result<+T, +E> = Ok(value: T) | Err(error: E)
}
