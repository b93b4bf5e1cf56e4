/** The optional value used wherever the source returns `null`/`undefined`
    or reads an optional property. */
module Wrappers {

  datatype Option<+T> = None | Some(value: T)

}
