/** Rust's `Option` and `Result` (`anyhow::Result` and `io::Result` alike),
    shared by the model. */
module Wrappers {

  datatype Option<+T> = None | Some(value: T)

  datatype Result<+T, +E> = Ok(value: T) | Err(error: E)
}
