/** The optional values of the model: an environment variable that may be unset,
    a configuration field that may be absent (`undefined` in JavaScript). */
module Wrappers {

  datatype Option<+T> = None | Some(value: T)
}
