/** An optional value: the Dafny form of a field or result that may be `undefined`. */
module Options {

  datatype Option<T> = None | Some(value: T)
}
