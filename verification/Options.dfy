/** The optional values (nil pointers) of the Go code. */
module Options {

  datatype Option<+T> = None | Some(value: T)
}
