/** The nullable columns and absent rows of the system. */
module Options {
  datatype Option<+T> = None | Some(value: T)
}
