/** The nullable values of the client: a JavaScript `null`/`undefined` or a value. */
module Wrappers {

  datatype Option<+T> = None | Some(value: T)
}
