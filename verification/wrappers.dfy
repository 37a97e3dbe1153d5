/** Failure-carrying wrappers used throughout the model. */
module Wrappers {

  /** An optional value: a tree-sitter field lookup, an enclosing class, a parse tree. */
  datatype Option<+T> = None | Some(value: T)

  /** Either a value or an error, as `anyhow::Result` is used by the parser entry point. */
  datatype Result<+R, +E> = Success(value: R) | Failure(error: E)
}
