/** An optional value: a nullable column, a missing row, an absent field. */
module Options {
  datatype Option<+T> = None | Some(value: T)
}
