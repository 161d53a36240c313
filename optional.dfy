/** The conventional Some/None datatype, standing for Swift optionals. */
module Optional {

  datatype Option<+T> = None | Some(value: T)
}
