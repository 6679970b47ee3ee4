/** A value that may be absent: the model's stand-in for an optional callback
    argument or an unresolved lookup. */
module Options {

  datatype Option<+T> = None | Some(value: T)
}
