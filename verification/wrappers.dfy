/** The optional-value datatype used for the source's nullable references:
    a lookup that finds nothing yields None, where the source sees null. */
module Wrappers {

  datatype Option<+T> = None | Some(value: T)
}
