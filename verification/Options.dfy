/** An optional value: the source's null, missing column or absent map entry. */
module Options {
  datatype Option<+T> = None | Some(value: T)
}
