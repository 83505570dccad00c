/** The usual optional value: a Python `None` or a present value. */
module Optional {
  datatype Option<T> = None | Some(value: T)
}
