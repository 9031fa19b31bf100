/** Python's optional values (`None` or a value), as used by the backend's globals and lookups. */
module Options {

  datatype Option<+T> = None | Some(value: T)
}
