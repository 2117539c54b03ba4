/** Rust's `Option`, as returned by every store operation. */
module Wrappers {
  datatype Option<+T> = None | Some(value: T)
}
