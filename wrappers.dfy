/** The optional value the engine's lookups return: a note that may be
    absent, a tapped element that may be missing, a milestone not yet
    reached. */
module Wrappers {
  datatype Option<T> = None | Some(value: T)
}
