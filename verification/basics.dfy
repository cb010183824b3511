/** Shared vocabulary of the model: an optional value, the number pi, and the
    clamp that js/main.js writes as `Math.max(lo, Math.min(hi, x))`. */
module Basics {

  /** A value that may be missing: the planet an `Array.find` may not
      find, or the `null` of an empty `hoveredPlanet`. */
  datatype Option<+T> = None | Some(value: T)

  /** `Math.PI`, written as the shortest decimal that denotes the same double.
      The proofs use only that the band [0.1, Pi - 0.1] is non-empty and that
      Pi is positive. */
  const Pi: real := 3.141592653589793

  function Min(a: real, b: real): (r: real)
    ensures r <= a && r <= b
    ensures r == a || r == b
  {
    if a <= b then a else b
  }

  function Max(a: real, b: real): (r: real)
    ensures a <= r && b <= r
    ensures r == a || r == b
  {
    if a <= b then b else a
  }

  /** `Math.max(lo, Math.min(hi, x))`: the value never falls below `lo`; when
      the bounds are ordered it lies between them, equals `x` when `x` already
      does, and is pinned to the bound `x` overshoots otherwise. */
  function Clamp(lo: real, hi: real, x: real): (r: real)
    ensures lo <= r
    ensures lo <= hi ==> r <= hi
    ensures lo <= x <= hi ==> r == x
    ensures x <= lo ==> r == lo
    ensures lo <= hi <= x ==> r == hi
  {
    Max(lo, Min(hi, x))
  }
}
