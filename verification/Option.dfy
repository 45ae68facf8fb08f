/** The value-or-nothing type used wherever the program uses `None`. */
module Option {
  datatype Option<+T> = None | Some(value: T)
}
