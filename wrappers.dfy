/** Optional values and the outcome of a call that may raise. */
module Wrappers {

  datatype Option<+T> = None | Some(value: T)

  /** What a Python call produces: a value, or an exception that escapes it
      (AttributeError or TypeError from treating a JSON value as the wrong kind). */
  datatype Outcome<+T> = Returned(value: T) | Raised
}
