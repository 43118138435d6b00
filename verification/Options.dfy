/** An optional value: the source's `None`-or-value results and fields. */
module Options {
  datatype Option<+T> = None | Some(value: T)
}
