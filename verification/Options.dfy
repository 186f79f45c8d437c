/** The optional value used throughout the model, for `undefined` and `null`. */
module Options {
  datatype Option<+T> = None | Some(value: T)
}
