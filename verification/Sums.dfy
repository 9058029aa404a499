/** Finite sums of reals, and the few algebraic facts the numeric modules share. */
module Sums {

  /** f(0) + ... + f(n-1). */
  function Sum(n: nat, f: int -> real): real {
    if n == 0 then 0.0 else Sum(n - 1, f) + f(n - 1)
  }

  lemma SumStep(n: nat, f: int -> real)
    ensures Sum(n + 1, f) == Sum(n, f) + f(n)
  {
  }

  lemma {:induction false} SumCong(n: nat, f: int -> real, g: int -> real)
    requires forall i :: 0 <= i < n ==> f(i) == g(i)
    ensures Sum(n, f) == Sum(n, g)
  {
    if n > 0 {
      SumCong(n - 1, f, g);
    }
  }

  /** A sum of pointwise linear combinations is that combination of the sums. */
  lemma {:induction false} SumLinear(n: nat, a: real, f: int -> real, b: real, g: int -> real, h: int -> real)
    requires forall i :: 0 <= i < n ==> h(i) == a * f(i) + b * g(i)
    ensures Sum(n, h) == a * Sum(n, f) + b * Sum(n, g)
  {
    if n > 0 {
      SumLinear(n - 1, a, f, b, g, h);
      assert h(n - 1) == a * f(n - 1) + b * g(n - 1);
      OneMoreTerm(a, Sum(n - 1, f), f(n - 1), Sum(n, f));
      OneMoreTerm(b, Sum(n - 1, g), g(n - 1), Sum(n, g));
    }
  }

  lemma OneMoreTerm(a: real, x: real, x': real, total: real)
    requires total == x + x'
    ensures a * total == a * x + a * x'
  {
  }

  lemma SumScale(n: nat, a: real, f: int -> real, h: int -> real)
    requires forall i :: 0 <= i < n ==> h(i) == a * f(i)
    ensures Sum(n, h) == a * Sum(n, f)
  {
    SumLinear(n, a, f, 0.0, f, h);
  }

  lemma {:induction false} SumZero(n: nat, f: int -> real)
    requires forall i :: 0 <= i < n ==> f(i) == 0.0
    ensures Sum(n, f) == 0.0
  {
    if n > 0 {
      SumZero(n - 1, f);
    }
  }

  lemma {:induction false} SumLe(n: nat, f: int -> real, g: int -> real)
    requires forall i :: 0 <= i < n ==> f(i) <= g(i)
    ensures Sum(n, f) <= Sum(n, g)
  {
    if n > 0 {
      SumLe(n - 1, f, g);
    }
  }

  /** Two summands that differ only at p change the sum by their difference at p. */
  lemma {:induction false} SumChangeOne(n: nat, f: int -> real, g: int -> real, p: int)
    requires 0 <= p < n
    requires forall i :: 0 <= i < n && i != p ==> f(i) == g(i)
    ensures Sum(n, g) - Sum(n, f) == g(p) - f(p)
  {
    if n - 1 == p {
      SumCong(n - 1, f, g);
    } else {
      SumChangeOne(n - 1, f, g, p);
    }
  }

  /** Two summands that differ only at p and q. */
  lemma SumChangeTwo(n: nat, f: int -> real, g: int -> real, p: int, q: int)
    requires 0 <= p < n && 0 <= q < n && p != q
    requires forall i :: 0 <= i < n && i != p && i != q ==> f(i) == g(i)
    ensures Sum(n, g) - Sum(n, f) == g(p) - f(p) + g(q) - f(q)
  {
    var h := i => if i == p then g(p) else f(i);
    SumChangeOne(n, f, h, p);
    SumChangeOne(n, h, g, q);
  }

  /** Only p contributes. */
  lemma SumOnly(n: nat, f: int -> real, p: int)
    requires 0 <= p < n
    requires forall i :: 0 <= i < n && i != p ==> f(i) == 0.0
    ensures Sum(n, f) == f(p)
  {
    var z := i => 0.0;
    SumZero(n, z);
    SumChangeOne(n, z, f, p);
  }

  /** The head of a sum and its shifted tail. */
  lemma {:induction false} SumSplit(n: nat, k: nat, f: int -> real, g: int -> real)
    requires k <= n
    requires forall i :: 0 <= i < n - k ==> g(i) == f(k + i)
    ensures Sum(n, f) == Sum(k, f) + Sum(n - k, g)
  {
    if n > k {
      SumSplit(n - 1, k, f, g);
      assert g(n - 1 - k) == f(k + (n - 1 - k));
    }
  }

  /** A summand supported on lo..hi. */
  lemma SumWindow(n: nat, lo: nat, hi: nat, f: int -> real, g: int -> real)
    requires lo <= hi <= n
    requires forall i :: 0 <= i < n && !(lo <= i < hi) ==> f(i) == 0.0
    requires forall i :: 0 <= i < hi - lo ==> g(i) == f(lo + i)
    ensures Sum(n, f) == Sum(hi - lo, g)
  {
    var rest := i => f(hi + i);
    SumSplit(n, hi, f, rest);
    SumZero(n - hi, rest);
    SumSplit(hi, lo, f, g);
    SumZero(lo, f);
  }

  function RowSum(m: nat, F: (int, int) -> real): int -> real {
    i => Sum(m, j => F(i, j))
  }

  function ColSum(n: nat, F: (int, int) -> real): int -> real {
    j => Sum(n, i => F(i, j))
  }

  /** The order of a double sum does not matter. */
  lemma {:induction false} SumSwap(n: nat, m: nat, F: (int, int) -> real)
    ensures Sum(n, RowSum(m, F)) == Sum(m, ColSum(n, F))
  {
    if n == 0 {
      SumZero(m, ColSum(0, F));
    } else {
      SumSwap(n - 1, m, F);
      var last := j => F(n - 1, j);
      forall j | 0 <= j < m ensures ColSum(n, F)(j) == ColSum(n - 1, F)(j) + last(j) {
        OneMoreRow(n, F, j);
      }
      SumLinear(m, 1.0, ColSum(n - 1, F), 1.0, last, ColSum(n, F));
      assert RowSum(m, F)(n - 1) == Sum(m, last) by {
        SumCong(m, last, j => F(n - 1, j));
      }
    }
  }

  lemma OneMoreRow(n: nat, F: (int, int) -> real, j: int)
    requires n > 0
    ensures ColSum(n, F)(j) == ColSum(n - 1, F)(j) + F(n - 1, j)
  {
    var column := i => F(i, j);
    assert ColSum(n, F)(j) == Sum(n, column);
    assert ColSum(n - 1, F)(j) == Sum(n - 1, column) by {
      SumCong(n - 1, column, i => F(i, j));
    }
  }

  /** Reordering the terms of a sum does not change it. */
  lemma SumPermute(n: nat, order: seq<int>, f: int -> real, g: int -> real)
    requires IsPermutation(n, order)
    requires forall i :: 0 <= i < n ==> g(i) == f(order[i])
    ensures Sum(n, g) == Sum(n, f)
  {
    var F := (i: int, x: int) => if 0 <= i < n && order[i] == x then f(x) else 0.0;
    forall i | 0 <= i < n ensures RowSum(n, F)(i) == g(i) {
      assert order[i] in order;
      SumOnly(n, x => F(i, x), order[i]);
      assert RowSum(n, F)(i) == Sum(n, x => F(i, x));
    }
    forall x | 0 <= x < n ensures ColSum(n, F)(x) == f(x) {
      assert x in order;
      var i :| 0 <= i < n && order[i] == x;
      SumOnly(n, i => F(i, x), i);
      assert ColSum(n, F)(x) == Sum(n, i => F(i, x));
    }
    SumCong(n, RowSum(n, F), g);
    SumCong(n, ColSum(n, F), f);
    SumSwap(n, n, F);
  }

  /** order lists 0 .. n-1, each exactly once. */
  ghost predicate IsPermutation(n: nat, order: seq<int>) {
    && |order| == n
    && (forall x :: x in order <==> 0 <= x < n)
    && (forall i, j :: 0 <= i < j < n ==> order[i] != order[j])
  }
}
