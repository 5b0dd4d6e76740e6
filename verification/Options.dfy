/** The usual optional value, standing for Go's nil and for the second result of a map lookup. */
module Options {
  datatype Option<+T> = None | Some(value: T)
}
