/** The optional value used for a label that names no level and for the untimed formatter. */
module Optional {
  datatype Option<+T> = None | Some(value: T)
}
