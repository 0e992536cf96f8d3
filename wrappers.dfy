/** The optional value used for nullable results (a position that may be
    `null`, a DOM reference that may not be attached yet). */
module Wrappers {

  datatype Option<+T> = None | Some(value: T)

}
