/** A value that may not be there. */
module Maybe {
  datatype Option<+T> = None | Some(value: T)
}
