/** The nullable results of the source (`results`, `getBest`, the pending
    start timer) as an explicit option. */
module Options {
  datatype Option<T> = None | Some(value: T)
}
