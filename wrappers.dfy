/** The optional value used for an absent file and a rejected menu response. */
module Wrappers {

  datatype Option<+T> = None | Some(value: T)
}
