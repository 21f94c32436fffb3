/** The Arduino and C arithmetic the firmware relies on, written out because
    Dafny's integers are unbounded and its `%` is Euclidean. */
module Arduino {

  /** Arduino `constrain(x, lo, hi)`: `x < lo ? lo : (x > hi ? hi : x)`. */
  function Constrain(x: int, lo: int, hi: int): (r: int)
    ensures lo <= hi ==> lo <= r <= hi
    ensures lo <= x <= hi ==> r == x
    ensures x < lo ==> r == lo
    ensures lo <= hi && x > hi ==> r == hi
  {
    if x < lo then lo else if x > hi then hi else x
  }

  /** C's `a % b` for `b > 0`: the remainder of division truncated toward zero,
      so it takes the sign of `a`. */
  function CRem(a: int, b: int): (r: int)
    requires b > 0
    ensures -b < r < b
    ensures a >= 0 ==> 0 <= r
    ensures a <= 0 ==> r <= 0
    ensures a >= 0 ==> r == a % b
  {
    if a >= 0 then a % b else -((-a) % b)
  }
}
