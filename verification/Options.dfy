/** An optional value, as the program's own Option. */
module Options {
  datatype Option<+T> = None | Some(value: T)
}
