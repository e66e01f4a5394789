/** Optional and fallible values shared by the other modules. */
module Wrappers {

  /** A pointer, map entry or timestamp that may be unset. */
  datatype Option<+T> = None | Some(value: T)

  /** A Go result with an error return; every error is alike to the callers modelled here. */
  datatype Result<+T> = Ok(value: T) | Err

  function Min(a: int, b: int): int { if a <= b then a else b }
}
