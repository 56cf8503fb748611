/** Values that may be absent: Go's nil pointers, nil errors and nil timers. */
module Options {
  datatype Option<+T> = None | Some(value: T)
}
