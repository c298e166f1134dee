/** An optional value, used for absent files, absent fields and null results. */
module Options {
  datatype Option<+T> = None | Some(value: T)
}
