/** The optional value returned by the engine lookups the model treats as oracles. */
module Wrappers {
  datatype Option<+T> = None | Some(value: T)
}
