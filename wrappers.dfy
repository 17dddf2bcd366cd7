/** Go's "value or nil" results: an `error` that may be nil, a field that may be absent. */
module Wrappers {

  datatype Option<+T> = None | Some(value: T)
}
