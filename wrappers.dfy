/** The "maybe absent" value that JavaScript expresses with `undefined` or `null`. */
module Wrappers {

  datatype Option<+T> = None | Some(value: T)

}
