/** Small value types shared by every module of the model. */
module Wrappers {

  /** A Go pointer or interface value that may be nil. */
  datatype Option<+T> = None | Some(value: T) {
    /** The value, or a default when there is none. */
    function GetOr(default: T): T
    {
      if Some? then value else default
    }
  }

  /** A Go `(value, error)` pair where exactly one side is meaningful. */
  datatype Result<+T, +E> = Ok(value: T) | Err(error: E)

  /** Go's `m[k]` on a map of slices: a missing key reads as the nil (empty) slice. */
  function Get<K, V>(m: map<K, seq<V>>, k: K): (r: seq<V>)
    ensures k !in m ==> r == []
  {
    if k in m then m[k] else []
  }

  /** The last element of a non-empty sequence, or a default. */
  function LastOr<T>(s: seq<T>, default: T): T
  {
    if s == [] then default else s[|s| - 1]
  }
}
