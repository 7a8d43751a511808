/** Optional values, used for the "missing" cases of the model:
    a session key not yet set, a cell that is not a date, a delta
    that needs at least two records. */
module Wrappers {
  datatype Option<+T> = None | Some(value: T)
}
