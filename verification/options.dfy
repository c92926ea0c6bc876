/** An optional value: the result of a lookup or a parse that may fail. */
module Options {

  datatype Option<T> = None | Some(value: T)
}
