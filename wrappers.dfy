/** The optional-value datatype used for metafunctions that may define no nested `type`. */
module Wrappers {

  datatype Option<+T> = None | Some(value: T)
}
