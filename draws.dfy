/** `Math.floor(Math.random() * n)`, with the value of `Math.random()` given as an input. */
module Draws {

  /** A value `Math.random()` can return. */
  predicate IsRandom(r: real) {
    0.0 <= r < 1.0
  }

  /** Scaling a value of `Math.random()` by a positive length stays in `[0, n)`. */
  lemma {:induction false} ProductBelow(r: real, n: nat)
    requires IsRandom(r) && n > 0
    ensures 0.0 <= r * n as real < n as real
  {
    if n > 1 {
      ProductBelow(r, n - 1);
      assert r * n as real == r * (n - 1) as real + r;
    }
  }

  /** The index `Math.floor(r * n)` picks from a list of length `n`. */
  function RandomIndex(r: real, n: nat): (i: nat)
    requires IsRandom(r) && n > 0
    ensures i < n
    ensures i as real <= r * n as real < i as real + 1.0
  {
    ProductBelow(r, n);
    (r * n as real).Floor
  }
}
