// Optional values, used where the Go code returns (value, ok) or a nil pointer.
module Options {
  datatype Option<+T> = None | Some(value: T)
}
