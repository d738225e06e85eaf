/**
 * The rounding primitives the pricing code uses, on exact reals.
 *
 * JavaScript's Math.floor / Math.ceil and Python's math.floor / math.ceil are
 * the mathematical floor and ceiling; JavaScript's Math.round rounds to the
 * nearest integer and sends halves towards +infinity, i.e. floor(x + 1/2).
 */
module Numeric {

  /** Math.floor: the greatest integer not above x. */
  function Floor(x: real): (r: int)
    ensures r as real <= x < r as real + 1.0
  {
    x.Floor
  }

  /** Math.ceil: the least integer not below x. */
  function Ceil(x: real): (r: int)
    ensures x <= r as real < x + 1.0
  {
    -((-x).Floor)
  }

  /** Math.round: the nearest integer, a tie going to the larger one. */
  function Round(x: real): (r: int)
    ensures r as real - 0.5 <= x < r as real + 0.5
  {
    Floor(x + 0.5)
  }

  /** Math.ceil(x / 10) * 10: the shelf-price quantisation to the next multiple of 10. */
  function CeilToTen(x: real): (r: int)
    ensures r % 10 == 0
    ensures x <= r as real < x + 10.0
  {
    var c := Ceil(x / 10.0);
    assert x <= 10.0 * c as real < x + 10.0;
    c * 10
  }

  /** CeilToTen is the least multiple of 10 that is not below x. */
  lemma CeilToTenIsLeast(x: real, m: int)
    requires m % 10 == 0 && x <= m as real
    ensures CeilToTen(x) <= m
  {
  }

  /** Rounding an integer gives it back. */
  lemma RoundOfInteger(n: int)
    ensures Round(n as real) == n
  {
  }

  /** Floor is monotone. */
  lemma FloorMonotone(x: real, y: real)
    requires x <= y
    ensures Floor(x) <= Floor(y)
  {
  }
}
