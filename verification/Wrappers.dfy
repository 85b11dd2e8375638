/** The two result shapes shared by every module. */
module Wrappers {

  /** A value that may be absent: a SQL NULL, a missing row, a nil pointer. */
  datatype Option<+T> = None | Some(value: T)

  /** Go's `(value, error)` pair. */
  datatype Result<+T, +E> = Ok(value: T) | Err(error: E)

  /** What the caller of a store sees of one write. `Lost` is a write that took
      effect although its caller was told that it failed. */
  datatype Reply = Done | Refused | Lost
  {
    predicate TookEffect() {
      this != Refused
    }
  }
}
