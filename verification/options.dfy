/** A value that may be absent: JavaScript's `undefined` or `null` for a field or a variable. */
module Optional {

  datatype Option<+T> = None | Some(value: T)
}
