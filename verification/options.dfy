/** The value-or-nothing type shared by the models: a field that the source leaves `undefined` or `null`. */
module Options {
  datatype Option<+T> = None | Some(value: T)
}
