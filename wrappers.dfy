/** A value that may be absent: an unparsable number (NaN), a field missing
    from a request body, an empty browser-storage slot. */
module Wrappers {

  datatype Option<+T> = None | Some(value: T)
}
