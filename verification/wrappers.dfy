/** The optional-value datatype used for components an entity may lack and for
    lookups that may find nothing. */
module Wrappers {

  datatype Option<+T> = None | Some(value: T)
}
