/** The optional value returned where the source returns `None` for "no match". */
module Wrappers {

  datatype Option<+T> = None | Some(value: T)
}
