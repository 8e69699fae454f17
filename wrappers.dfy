/** Optional values: a JSON field that may be absent, or a lookup that may miss. */
module Wrappers {

  datatype Option<+T> = None | Some(value: T)

  /** Shallow overlay of one field, as object spread does it: a present
      value in `over` wins, otherwise the field keeps `base`. */
  function Overlay<T>(over: Option<T>, base: Option<T>): Option<T>
  {
    if over.Some? then over else base
  }
}
