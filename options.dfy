/** A value that may be absent: JavaScript's `null` or `undefined` beside a real value. */
module Options {

  datatype Option<+T> = None | Some(value: T)
}
