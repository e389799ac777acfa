/** The optional value used by every module in place of the source's null and undefined. */
module Options {
  datatype Option<+T> = None | Some(value: T)
}
