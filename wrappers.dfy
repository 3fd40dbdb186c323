/** An optional value: the `undefined`-able fields of the components' state records. */
module Wrappers {

  datatype Option<+T> = None | Some(value: T)
}
