/** The one option type shared by all the models. */
module Wrappers {

  datatype Option<+T> = None | Some(value: T)

}
