/** A value that may be absent. */
module Options {
  datatype Option<+T> = Nothing | Just(value: T)
}
