/** The usual Some/None wrapper, used for values the app may not have yet. */
module Optional {
  datatype Option<+T> = None | Some(value: T)
}
