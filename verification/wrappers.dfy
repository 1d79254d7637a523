/** An optional value, used for payloads that may or may not be produced. */
module Wrappers {

  datatype Option<+T> = None | Some(value: T)
}
