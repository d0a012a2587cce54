/** An optional value: JavaScript's `null` or a present value. */
module Optional {
  datatype Option<+T> = None | Some(value: T)
}
