/** Rust's `Option<T>`, used for the optional fields of the Route 53 records. */
module Options {
  datatype Option<+T> = None | Some(value: T)
}
