/** The optional value the source returns as Python's `None` or a real value. */
module Options {

  datatype Option<T> = None | Some(value: T)
}
