/** Option and Result values shared by the modules of the dashboard model. */
module Wrappers {

  datatype Option<+T> = None | Some(value: T)

  /** A Python call either returns a value or raises an exception. */
  datatype Result<+T, +E> = Ok(value: T) | Err(error: E)

  predicate StartsWith(s: string, prefix: string) {
    |prefix| <= |s| && s[..|prefix|] == prefix
  }
}
