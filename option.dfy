/** An optional value, for parses that can run off the end of their input. */
module Options {
  datatype Option<T> = None | Some(value: T)
}
