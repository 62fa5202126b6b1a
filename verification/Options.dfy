/** The optional value used wherever the Go code returns "nothing", "not found" or an error. */
module Options {

  datatype Option<+T> = None | Some(value: T)
}
