/** The usual Some/None wrapper, used for values the processor may not have yet. */
module Optional {
  datatype Option<+T> = None | Some(value: T)
}
