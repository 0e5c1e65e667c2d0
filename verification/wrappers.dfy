/** The optional value used for every field a form submission may leave undefined. */
module Wrappers {

  datatype Option<+T> = None | Some(value: T)
}
