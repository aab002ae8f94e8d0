/** The optional value used wherever the source signals absence with nil or a second result. */
module Options {
  datatype Option<+T> = None | Some(value: T)
}
