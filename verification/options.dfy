/** A value that may be missing: nil pointers, failed casts, panics. */
module Options {
  datatype Option<+T> = None | Some(value: T)
}
