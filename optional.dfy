/** A value that may be absent: JavaScript's `null`/`undefined` for an object-valued field. */
module Optional {
  datatype Option<+T> = None | Some(value: T)
}
