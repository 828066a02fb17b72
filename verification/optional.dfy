/** An optional value, used for the request fields the bridge may leave unset. */
module Optional {

  datatype Option<+T> = None | Some(value: T)
}
