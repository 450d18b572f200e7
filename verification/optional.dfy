/** The conventional Some/None datatype, standing in for a nullable reference. */
module Optional {

  datatype Option<+T> = None | Some(value: T)

}
