/** The optional value used for entries the rule table or the form may lack. */
module Wrappers {
  datatype Option<+T> = None | Some(value: T)
}
