/** Integer and real helpers that reproduce Python's numeric operators. */
module Numbers {

  function Abs(n: int): (r: nat)
    ensures r == n || r == -n
  {
    if n < 0 then -n else n
  }

  function AbsReal(x: real): (r: real)
    ensures r >= 0.0 && (r == x || r == -x)
  {
    if x < 0.0 then -x else x
  }

  function Max(a: int, b: int): (r: int)
    ensures r >= a && r >= b && (r == a || r == b)
  {
    if a < b then b else a
  }

  /** Python's `int(x)` on a float: truncation toward zero. */
  function Trunc(x: real): (n: int)
    ensures 0.0 <= x ==> 0 <= n && n as real <= x < n as real + 1.0
    ensures x < 0.0 ==> n <= 0 && n as real - 1.0 < x <= n as real
  {
    if x >= 0.0 then x.Floor else -((-x).Floor)
  }

  /** The magnitude of a truncated value never exceeds the magnitude of the value. */
  lemma TruncShrinks(x: real)
    ensures AbsReal(Trunc(x) as real) <= AbsReal(x)
    ensures AbsReal(x) < 1.0 ==> Trunc(x) == 0
  {
  }

  /** Python's `n // 2`: floor division, also for negative `n`. */
  function FloorHalf(n: int): (h: int)
    ensures 2 * h <= n < 2 * h + 2
  {
    n / 2
  }
}
