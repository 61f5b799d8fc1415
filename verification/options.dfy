/** The optional value used for a score that was withheld (Python's `None`). */
module Options {

  datatype Option<+T> = None | Some(value: T)
}
