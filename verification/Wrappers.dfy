/** The usual optional value: a C++ pointer or iterator that may be null or end(). */
module Wrappers {
  datatype Option<+T> = None | Some(value: T)
}
