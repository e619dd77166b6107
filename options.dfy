/** The optional value returned by an operation that the source lets raise. */
module Options {

  /** `None` stands for a raised exception; `Some` carries the normal result. */
  datatype Option<+T> = None | Some(value: T)
}
