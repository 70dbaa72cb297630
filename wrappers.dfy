/** Option, the value-or-nothing type used for every "may be null" result of the service. */
module Wrappers {

  datatype Option<+T> = None | Some(value: T)

}
