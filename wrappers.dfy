/** The Option datatype shared by the other modules. */
module Wrappers {

  /** `Some(v)` or `None`, as Rust's `Option` and JavaScript's "value or null". */
  datatype Option<+T> = None | Some(value: T)
}
