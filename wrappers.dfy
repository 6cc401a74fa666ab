/** Small value types shared by both record stores. */
module Wrappers {

  /** An optional value, as Rust's `Option`. */
  datatype Option<+T> = None | Some(value: T)

  /** The outcome of a call that can fail with a message, as Rust's `Result`. */
  datatype Result<+T, +E> = Success(value: T) | Failure(error: E)

  /** An identity of the Internet Computer. Its internal encoding is not modelled:
      only equality matters to the stores, which use it as the partition key. */
  datatype Principal = Principal(bytes: seq<bv8>)
}
