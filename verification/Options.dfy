/** Absent or present values: the nullable columns and optional results of the program. */
module Options {
  datatype Option<+T> = None | Some(value: T)
}
