/** The optional value both halves of the model use: a Go pointer that may be
    nil, a map lookup that may miss, an oracle that may find nothing. */
module Wrappers {

  datatype Option<T> = None | Some(value: T)
}
