/** Rust's `Option`: a code block's language, a link's title, a style's colours. */
module Wrappers {

  datatype Option<T> = None | Some(value: T)
}
