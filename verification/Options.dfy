/** The optional value used wherever the source uses `None`. */
module Options {
  datatype Option<+T> = None | Some(value: T)
}
