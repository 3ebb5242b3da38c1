// A value that may be absent: a failed search, or a field that a trace does not have.
module Options {
  datatype Option<T> = None | Some(value: T)
}
