/** A nullable column or an optional reply. */
module Options {
  datatype Option<+T> = None | Some(value: T)
}
