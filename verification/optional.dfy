/** The "value or nothing" wrapper that stands in for Python's `None`. */
module Optional {

  datatype Option<+T> = None | Some(value: T)
}
