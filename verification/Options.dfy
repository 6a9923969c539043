/** An optional value: a Go pointer, or a second `ok` result. */
module Options {
  datatype Option<+T> = None | Some(value: T)
}
