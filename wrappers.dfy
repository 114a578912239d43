/** The optional value that `Option<T>` stands for in the Rust source. */
module Wrappers {

  datatype Option<+T> = None | Some(value: T)
}
