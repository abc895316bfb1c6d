/** The absent-or-present value that stands for a nullable column or an optional argument. */
module Options {
  datatype Option<+T> = None | Some(value: T)
}
