// Python's None, for functions that return a value or None.

module Optional {
  datatype Option<T> = None | Some(value: T)
}
