/** The usual optional value, shared by the modules below. */
module Options {
  datatype Option<+T> = None | Some(value: T)
}
