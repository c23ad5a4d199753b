/** The optional value of a JavaScript `string | null` field. */
module Wrappers {
  datatype Option<+T> = None | Some(value: T)
}
