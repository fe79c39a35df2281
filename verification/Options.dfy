/** An optional value: the source's `None` or a value. */
module Options {
  datatype Option<+T> = None | Some(value: T)
}
