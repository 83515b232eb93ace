/** An optional value, for fields a JavaScript object may lack and for "no message". */
module Wrappers {
  datatype Option<+T> = None | Some(value: T)
}
