/** Small numeric helpers shared by the model: the game's `clamp` and the
    `Math.min` / `Math.max` it is built from, plus an option type for the
    values the game keeps as `null` when absent. */
module Util {

  datatype Option<+T> = None | Some(value: T)

  function Min(a: real, b: real): (r: real)
    ensures r <= a && r <= b
    ensures r == a || r == b
  {
    if a <= b then a else b
  }

  function Max(a: real, b: real): (r: real)
    ensures r >= a && r >= b
    ensures r == a || r == b
  {
    if a >= b then a else b
  }

  /** `clamp(v, a, b) = Math.max(a, Math.min(b, v))`: when the bounds are
      crossed (`a > b`) the lower bound wins. */
  function Clamp(v: real, lo: real, hi: real): (r: real)
    ensures lo <= hi ==> lo <= r <= hi
    ensures lo <= v <= hi ==> r == v
    ensures hi < lo ==> r == lo
    ensures lo <= hi && v < lo ==> r == lo
    ensures lo <= hi && hi < v ==> r == hi
  {
    Max(lo, Min(hi, v))
  }

  /** The same clamp on integer arguments. */
  function ClampInt(v: int, lo: int, hi: int): (r: int)
    ensures lo <= hi ==> lo <= r <= hi
    ensures lo <= v <= hi ==> r == v
    ensures lo <= hi && v < lo ==> r == lo
    ensures lo <= hi && hi < v ==> r == hi
  {
    if hi < v then (if lo > hi then lo else hi) else if v < lo then lo else v
  }

  function MinInt(a: int, b: int): (r: int)
    ensures r <= a && r <= b && (r == a || r == b)
  {
    if a <= b then a else b
  }

  function MaxInt(a: int, b: int): (r: int)
    ensures r >= a && r >= b
    ensures r == a || r == b
  {
    if a >= b then a else b
  }

  function Abs(x: real): (a: real)
    ensures a >= 0.0 && (a == x || a == -x)
  {
    if x < 0.0 then -x else x
  }

  /** Dividing by a positive number keeps an upper bound. */
  lemma DivAtMost(x: real, y: real, c: real)
    requires c > 0.0 && x <= y * c
    ensures x / c <= y
  {
  }

  /** Dividing by a positive number keeps a lower bound. */
  lemma DivAtLeast(x: real, y: real, c: real)
    requires c > 0.0 && x >= y * c
    ensures x / c >= y
  {
  }
}
