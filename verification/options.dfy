/** An optional value, used for parses that can fail. */
module Options {

  datatype Option<+T> = None | Some(value: T)
}
