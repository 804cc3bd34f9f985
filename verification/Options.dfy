/** An optional value: a pointer or handle that may be null. */
module Options {
  datatype Option<+T> = None | Some(value: T)
}
