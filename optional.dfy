/** A value that may be absent: Python's `None` or an empty iterator. */
module Optional {
  datatype Option<+T> = None | Some(value: T)
}
