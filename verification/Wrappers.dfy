// Result types shared by every module.
module Wrappers {
  /** A nullable value of the source. */
  datatype Option<+T> = None | Some(value: T)

  /** A settled promise: its value, or the error it was rejected with. */
  datatype Result<+T, +E> = Ok(value: T) | Err(error: E)

  /** The same truth value, kept as one proof obligation however large `p` is. */
  predicate Whole(p: bool) {
    p == true
  }
}
