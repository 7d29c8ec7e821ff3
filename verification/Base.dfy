/** Small shared types: optional values and byte strings. */
module Base {

  datatype Option<+T> = None | Some(value: T)
  {
    function GetOr(fallback: T): T {
      match this
      case Some(v) => v
      case None => fallback
    }
  }

  type Bytes = seq<bv8>

  function Min(a: int, b: int): int { if a < b then a else b }

  /** Python's data[start:stop] for start, stop >= 0: both ends are clipped to the length. */
  function Slice(data: Bytes, start: nat, stop: nat): Bytes {
    var lo := Min(start, |data|);
    var hi := Min(stop, |data|);
    if lo < hi then data[lo..hi] else []
  }

  function Last<T>(s: seq<T>): T
    requires |s| > 0
  {
    s[|s| - 1]
  }
}
