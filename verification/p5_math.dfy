/** The two p5 numeric helpers the hero background relies on, over exact reals. */
module P5Math {

  function Min(a: real, b: real): (r: real)
    ensures r <= a && r <= b
    ensures r == a || r == b
  {
    if a <= b then a else b
  }

  function Max(a: real, b: real): (r: real)
    ensures r >= a && r >= b
    ensures r == a || r == b
  {
    if a >= b then a else b
  }

  /** p5's `constrain(n, low, high)`, defined by the library as `max(min(n, high), low)`. */
  function Constrain(n: real, low: real, high: real): (r: real)
    ensures low <= high ==> low <= r <= high
    ensures low <= n <= high ==> r == n
    ensures n < low ==> r == low
    ensures low <= high < n ==> r == high
  {
    Max(Min(n, high), low)
  }
}
