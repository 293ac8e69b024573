/** Small things several modules share. */
module Basics {

  type Byte = b: int | 0 <= b < 256

  function Min(a: int, b: int): int { if a <= b then a else b }

  function Bit(b: bool): nat { if b then 1 else 0 }

  lemma SubsetSize<T>(a: set<T>, b: set<T>)
    requires a <= b
    ensures |a| <= |b|
  {
    assert b == a + (b - a);
  }

  /** Always so. What is said under `forall n :: Shown(n)` is there for those who ask, by asserting Shown(0), and does
      not burden the proofs of those who do not. */
  predicate Shown(n: nat) { true }
}
