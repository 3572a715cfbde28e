/** The optional-value datatype shared by the modules of this model; `None` plays
    the part of JavaScript's `null`/`undefined` where the source returns one. */
module Wrappers {

  datatype Option<+T> = None | Some(value: T)
}
