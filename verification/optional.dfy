/** The absent-or-present value the source writes as `T | null` or `T | undefined`. */
module Optional {

  datatype Option<+T> = None | Some(value: T)
}
