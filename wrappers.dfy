/** Optional values: the model's stand-in for Rust's `Option` and for the
    panics of the modelled entry points (a panic is modelled as `None`). */
module Wrappers {
  datatype Option<T> = None | Some(value: T)
}
