/** A value that may be missing: nullable columns, failed reads and refused computations. */
module Options {
  datatype Option<+T> = None | Some(value: T)
}
