/** Small failure-carrying datatypes shared by the rest of the model. */
module Wrappers {

  /** An optional value, as Rust's `Option`. */
  datatype Option<+T> = None | Some(value: T)

  /** The result of a fallible operation that returns nothing on success,
      as Rust's `io::Result<()>`. */
  datatype Outcome<+E> = Pass | Fail(error: E)
}
