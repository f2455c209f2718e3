/** An optional value: Go's nil pointers and nil interface values. */
module Optional {

  datatype Option<+T> = None | Some(value: T)
}
