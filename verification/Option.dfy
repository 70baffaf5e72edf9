/** A value that may be absent: `None` and `dict.get` in the source. */
module Options {
  datatype Option<+T> = None | Some(value: T)
}
