/** Division facts the solver does not find on its own. */
module Arith {

  lemma MulGap(a: int, b: int, k: nat)
    ensures a < b ==> a * k + k <= b * k
  {
    if a < b {
      var d: nat := b - a - 1;
      NonNegativeProduct(d, k);
      assert (a + 1 + d) * k == a * k + k + d * k;
    }
  }

  lemma NonNegativeProduct(d: nat, k: nat)
    ensures 0 <= d * k
  {
  }

  lemma PositiveFactors(a: nat, b: nat)
    requires 0 < a * b
    ensures 0 < a && 0 < b
  {
  }

  lemma QuotientBelow(j: nat, blocks: nat, size: nat)
    requires size > 0 && j < blocks * size
    ensures 0 <= j / size < blocks
  {
    var q := j / size;
    assert j == q * size + j % size;
    MulGap(blocks - 1, q, size);
    assert (blocks - 1) * size + size == blocks * size;
  }

  lemma DivisionIsUnique(x: int, k: nat, q: int, j: int)
    requires 0 <= j < k && x == q * k + j
    ensures x / k == q && x % k == j
  {
    var q', j' := x / k, x % k;
    assert x == q' * k + j';
    MulGap(q, q', k);
    MulGap(q', q, k);
  }
}
