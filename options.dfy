/** The optional value used for every `Option<...>` field of the hook's state. */
module Options {
  datatype Option<+T> = None | Some(value: T)
}
