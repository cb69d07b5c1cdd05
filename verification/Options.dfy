/** The optional value used by every module: a Go pointer that may be nil, or a zero time. */
module Options {
  datatype Option<+T> = None | Some(value: T)
}
