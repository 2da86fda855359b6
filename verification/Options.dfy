/** The absent-or-present value used wherever the program keeps a nullable pointer or a sentinel. */
module Options {
  datatype Option<+T> = None | Some(value: T)
}
