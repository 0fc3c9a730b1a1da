/** Rust's Option, and a Result that stands for each `panic!` of the
    expression pipeline: where the code panics, the model returns `Err`. */
module Outcome {
  datatype Option<T> = None | Some(value: T)

  datatype Result<T, E> = Ok(value: T) | Err(error: E)
}
