/** The optional value used wherever the dashboard sees `undefined`, `null` or a failed call. */
module Wrappers {

  datatype Option<+T> = None | Some(value: T)
}
