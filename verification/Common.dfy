/** An optional value, as used throughout. */
module Common {
  datatype Option<T> = None | Some(value: T)
}
