/** The optional value used for PHP's nullable fields and ambient context. */
module Wrappers {

  datatype Option<+T> = None | Some(value: T)
}
