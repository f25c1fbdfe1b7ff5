/** The absent-or-present value the source expresses with Swift optionals. */
module Optional {
  datatype Option<+T> = None | Some(value: T)
}
