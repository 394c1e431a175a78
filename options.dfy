/** An optional value, standing for a nullable handle or reference. */
module Options {

  datatype Option<+T> = None | Some(value: T)
}
