/** The few JavaScript `Math` primitives the evaluation engine relies on,
    stated over mathematical reals (IEEE-754 representation is not modelled). */
module JsMath {

  /** `Math.round`: the nearest integer, with halves rounded towards +infinity. */
  function Round(x: real): (n: int)
    ensures n as real - 0.5 <= x < n as real + 0.5
  {
    (x + 0.5).Floor
  }

  /** `Math.min` of two numbers. */
  function Min(a: real, b: real): (r: real)
    ensures r <= a && r <= b
    ensures r == a || r == b
  {
    if a <= b then a else b
  }

  /** `Math.max` of two numbers. */
  function Max(a: real, b: real): (r: real)
    ensures r >= a && r >= b
    ensures r == a || r == b
  {
    if a >= b then a else b
  }

  /** Rounding never reverses the order of two numbers. */
  lemma RoundMonotone(x: real, y: real)
    requires x <= y
    ensures Round(x) <= Round(y)
  {
  }

  /** Rounding leaves whole numbers alone. */
  lemma RoundOfWhole(n: int)
    ensures Round(n as real) == n
  {
  }
}
