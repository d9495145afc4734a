/** The optional value used for Firestore fields and documents that may be absent. */
module Wrappers {

  datatype Option<+T> = None | Some(value: T)
}
