/** The optional value used wherever the pinger reads a key that may be absent. */
module Optional {

  datatype Option<+T> = None | Some(value: T)
}
