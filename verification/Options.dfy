/** A value that may be missing: undefined, null, or a key that is not stored. */
module Options {
  datatype Option<+T> = None | Some(value: T)
}
