/** Option, used wherever the modelled code has a nullable value. */
module Wrappers {

  datatype Option<+T> = None | Some(value: T)
}
