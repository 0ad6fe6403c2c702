/** The optional value that Rust's `Option` and the `Ok`/`Err` of a parse stand for. */
module Wrappers {
  datatype Option<+T> = None | Some(value: T)
}
