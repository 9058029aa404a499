/** Fresh names: the base itself, or the first of base_1, base_2, ... that is not taken. */
module Naming {

  function Digit(d: int): char
    requires 0 <= d < 10
  {
    ('0' as int + d) as char
  }

  lemma DigitIs(d: nat)
    requires d < 10
    ensures Digit(d) == "0123456789"[d]
  {
  }

  /** The decimal numeral of n. */
  function Decimal(n: nat): (s: string)
    ensures s != []
  {
    if n < 10 then [Digit(n)] else Decimal(n / 10) + [Digit(n % 10)]
  }

  lemma {:induction false} DecimalInjective(m: nat, n: nat)
    requires Decimal(m) == Decimal(n)
    ensures m == n
    decreases m + n
  {
    var s, t := Decimal(m), Decimal(n);
    assert s[|s| - 1] == Digit(m % 10) && t[|t| - 1] == Digit(n % 10);
    if m >= 10 && n >= 10 {
      assert s[..|s| - 1] == Decimal(m / 10) && t[..|t| - 1] == Decimal(n / 10);
      DecimalInjective(m / 10, n / 10);
    } else {
      assert m >= 10 ==> |s| >= 2;
      assert n >= 10 ==> |t| >= 2;
    }
  }

  function Candidate(base: string, i: nat): string {
    if i == 0 then base else base + "_" + Decimal(i)
  }

  lemma CandidateInjective(base: string, i: nat, j: nat)
    requires Candidate(base, i) == Candidate(base, j)
    ensures i == j
  {
    if i > 0 && j > 0 {
      assert Candidate(base, i)[|base| + 1..] == Decimal(i);
      assert Candidate(base, j)[|base| + 1..] == Decimal(j);
      DecimalInjective(i, j);
    } else {
      assert i > 0 ==> |Candidate(base, i)| > |base|;
      assert j > 0 ==> |Candidate(base, j)| > |base|;
    }
  }

  /** name is the first candidate outside taken. */
  ghost predicate IsFirstFree(base: string, taken: set<string>, name: string) {
    && name !in taken
    && exists i: nat :: name == Candidate(base, i) && forall j: nat :: j < i ==> Candidate(base, j) in taken
  }

  /** So the outcome does not depend on how the search is written. */
  lemma FirstFreeUnique(base: string, taken: set<string>, a: string, b: string)
    requires IsFirstFree(base, taken, a) && IsFirstFree(base, taken, b)
    ensures a == b
  {
    var i: nat :| a == Candidate(base, i) && forall j: nat :: j < i ==> Candidate(base, j) in taken;
    var k: nat :| b == Candidate(base, k) && forall j: nat :: j < k ==> Candidate(base, j) in taken;
    assert !(i < k) && !(k < i);
  }

  lemma FirstFreeIsNonempty(base: string, taken: set<string>, name: string)
    requires base != "" && IsFirstFree(base, taken, name)
    ensures name != "" && name !in taken
  {
  }

  lemma SubsetSize<T>(a: set<T>, b: set<T>)
    requires a <= b
    ensures |a| <= |b|
  {
    assert b == a + (b - a);
  }

  /** The names of the first n candidates, all different. */
  ghost function Candidates(base: string, n: nat): (s: set<string>)
    ensures forall x :: x in s <==> exists j: nat :: j < n && x == Candidate(base, j)
  {
    set j: nat | j < n :: Candidate(base, j)
  }

  lemma {:induction false} CandidatesCount(base: string, n: nat)
    ensures |Candidates(base, n)| == n
  {
    if n == 0 {
      assert Candidates(base, 0) == {};
    } else {
      CandidatesCount(base, n - 1);
      assert Candidate(base, n - 1) !in Candidates(base, n - 1) by {
        if Candidate(base, n - 1) in Candidates(base, n - 1) {
          var j: nat :| j < n - 1 && Candidate(base, n - 1) == Candidate(base, j);
          CandidateInjective(base, n - 1, j);
        }
      }
      assert Candidates(base, n) == Candidates(base, n - 1) + {Candidate(base, n - 1)};
    }
  }

  /** Taken candidates are no more than the taken names. */
  lemma TakenCandidates(base: string, taken: set<string>, n: nat)
    requires forall j: nat :: j < n ==> Candidate(base, j) in taken
    ensures n <= |taken|
  {
    CandidatesCount(base, n);
    SubsetSize(Candidates(base, n), taken);
  }

  /** The search tries each candidate once, so it stops within one more try than there are taken names. */
  method UniqueName(base: string, taken: set<string>) returns (name: string, newTaken: set<string>)
    ensures IsFirstFree(base, taken, name)
    ensures newTaken == taken + {name}
  {
    name := base;
    var i := 0;
    while name in taken
      invariant name == Candidate(base, i)
      invariant forall j: nat :: j < i ==> Candidate(base, j) in taken
      decreases |taken| - i
    {
      TakenCandidates(base, taken, i + 1);
      i := i + 1;
      name := base + "_" + Decimal(i);
    }
    newTaken := taken + {name};
  }

  lemma FirstFreeExists(base: string, taken: set<string>) returns (name: string)
    ensures IsFirstFree(base, taken, name)
  {
    var i := 0;
    while Candidate(base, i) in taken
      invariant forall j: nat :: j < i ==> Candidate(base, j) in taken
      decreases |taken| - i
    {
      TakenCandidates(base, taken, i + 1);
      i := i + 1;
    }
    name := Candidate(base, i);
  }
}
