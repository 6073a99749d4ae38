/** The optional value shared by the chat responder and the scheduling screen. */
module Wrappers {

  datatype Option<+T> = None | Some(value: T)
}
