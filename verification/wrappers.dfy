/** The optional value used throughout the model: a Rust `Option`, and a null
    pointer in the record handed to the host. */
module Wrappers {

  datatype Option<+T> = None | Some(value: T)
}
