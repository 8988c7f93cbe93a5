/** A column that may be NULL, and a lookup that may find nothing. */
module Options {
  datatype Option<+T> = None | Some(value: T)
}
