/** The optional value used for every field a provider payload may leave out. */
module Wrappers {

  datatype Option<+T> = None | Some(value: T)

}
