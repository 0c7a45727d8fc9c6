/** A value that may be missing: JavaScript's `null`/`undefined`. */
module Optional {
  datatype Option<+T> = None | Some(value: T)
}
