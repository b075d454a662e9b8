/** Small shared vocabulary: optional values and integer time. */
module Common {

  /** A value that may be absent (`null` / `undefined` in the application). */
  datatype Option<+T> = None | Some(value: T) {

    /** The carried value, or `default` when absent. */
    function GetOr(default: T): T {
      match this
      case Some(v) => v
      case None => default
    }
  }

  /** A point in time, in milliseconds since the epoch (what `Date.getTime()` gives). */
  type Timestamp = int

  /** `1000 * 60 * 60 * 24`: the length of a day in milliseconds. */
  const MsPerDay: int := 86400000

  /** Shallow merge of one field: a field present in the patch overwrites, an absent one is kept. */
  function Pick<T>(patch: Option<T>, current: T): (r: T)
    ensures patch.Some? ==> r == patch.value
    ensures patch.None? ==> r == current
  {
    patch.GetOr(current)
  }
}
