/**
 * JavaScript's `Math.min`, `Math.max` and `Math.round` on numbers, and two
 * facts about multiplication that the index and tile-count proofs use.
 */
module Arith {

  function Min(a: real, b: real): real
  {
    if a <= b then a else b
  }

  function Max(a: real, b: real): real
  {
    if a >= b then a else b
  }

  /** `Math.round`: the nearest integer, halves rounded up. */
  function Round(x: real): int
  {
    (x + 0.5).Floor
  }

  /** Multiplying by a natural number keeps the order. */
  lemma MulMono(x: int, y: int, b: nat)
    requires x <= y
    ensures x * b <= y * b
  {
    assert y * b - x * b == (y - x) * b;
  }

  /** One more copy of `b`. */
  lemma MulSucc(k: nat, b: nat)
    ensures (k + 1) * b == k * b + b
  {
  }
}
