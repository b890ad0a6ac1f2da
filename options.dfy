/** The optional value used wherever the source has `null` or `None`. */
module Options {
  datatype Option<+T> = None | Some(value: T)
}
