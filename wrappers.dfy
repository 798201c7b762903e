/** A value that may be absent: a missing cache slot, a missing timestamp,
    or an indicator that is not available (NaN) on a row. */
module Wrappers {
  datatype Option<+T> = None | Some(value: T)
}
