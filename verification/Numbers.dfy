/** JavaScript's numeric helpers. */
module Numbers {

  function Max(a: int, b: int): int { if a > b then a else b }

  function MaxReal(a: real, b: real): real { if a > b then a else b }

  function MinReal(a: real, b: real): real { if a < b then a else b }

  /** `Math.round`: halves go up. */
  function Round(x: real): (r: int)
    ensures r as real - 0.5 <= x < r as real + 0.5
  {
    (x + 0.5).Floor
  }

  /** Rounding does not pass a whole number. */
  lemma RoundBetween(x: real, n: int)
    ensures x <= n as real ==> Round(x) <= n
    ensures n as real <= x ==> n <= Round(x)
  {
  }
}
