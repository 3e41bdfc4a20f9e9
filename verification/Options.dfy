/** The Some/None datatype used in place of Python's `None`. */
module Options {
  datatype Option<+T> = None | Some(value: T)
}
