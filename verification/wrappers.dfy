/** The optional value used where the C# code returns a reference that may be null. */
module Wrappers {

  datatype Option<+T> = None | Some(value: T)
}
