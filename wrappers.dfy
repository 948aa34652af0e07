/** A value that may be absent: a missing draft, an unset field of a partial record. */
module Wrappers {

  datatype Option<+T> = None | Some(value: T)
}
