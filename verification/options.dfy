/** The optional value used throughout the model: Python's "value or None". */
module Options {

  datatype Option<+T> = None | Some(value: T)

}
