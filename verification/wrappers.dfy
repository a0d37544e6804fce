/** The optional-value datatype used for JavaScript results that may be absent (NaN from parseInt, a null name). */
module Wrappers {

  datatype Option<+T> = None | Some(value: T)
}
