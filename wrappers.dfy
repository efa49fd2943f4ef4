/** The usual optional value, for decoders that can fail. */
module Wrappers {

  datatype Option<T> = None | Some(value: T)
}
