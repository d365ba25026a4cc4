/** The optional value used wherever the source has a sentinel such as
    std::string::npos or a NULL pointer. */
module Options {

  datatype Option<+T> = None | Some(value: T)

}
