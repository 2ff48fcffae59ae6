/** The usual Some/None wrapper, used for C++ positions that may be std::string::npos,
    for pointers that may be null and for operations that may throw. */
module Wrappers {

  datatype Option<+T> = None | Some(value: T)

}
