/** The optional value the engine returns where the source returns `None`. */
module Wrappers {

  datatype Option<+T> = None | Some(value: T)

}
