/** A value that may be missing: a nil pointer, an absent entry, an error not reported. */
module Options {
  datatype Option<+T> = None | Some(value: T)
}
