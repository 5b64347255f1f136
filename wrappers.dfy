/** The optional value used for the bus slot and for the framework's allocator answer. */
module Wrappers {

  datatype Option<+T> = None | Some(value: T)

}
