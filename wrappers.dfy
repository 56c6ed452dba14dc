/** Option and Result, standing for Go's nil results and (value, error) pairs. */
module Wrappers {

  datatype Option<+T> = None | Some(value: T)

  datatype Result<+T, +E> = Success(value: T) | Failure(error: E)

  /** Ranging over a nil map visits nothing, so a nil map merges like an empty one. */
  function OrEmpty<K, V>(o: Option<map<K, V>>): map<K, V> {
    if o.Some? then o.value else map[]
  }
}
