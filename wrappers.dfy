/** An optional value: a query parameter that may be absent, a table lookup that may miss. */
module Wrappers {
  datatype Option<+T> = None | Some(value: T)
}
