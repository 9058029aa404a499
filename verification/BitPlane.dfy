/** Nested bit-plane quantization: bins are bisected at their own midpoint, one more code bit each time, and
    reconstructed by their own mean. */
module BitPlane {
  import opened Sums
  import opened JacobiTheory

  // --- Bins --------------------------------------------------------------------------------

  /** values[codes == c], in order. */
  function Masked(values: seq<real>, codes: seq<int>, c: int): seq<real>
    requires |codes| == |values|
    decreases |values|
  {
    if values == [] then []
    else
      var n := |values| - 1;
      Masked(values[..n], codes[..n], c) + (if codes[n] == c then [values[n]] else [])
  }

  function Min(s: seq<real>): real
    requires s != []
  {
    if |s| == 1 then s[0] else var m := Min(s[1..]); if s[0] < m then s[0] else m
  }

  function Max(s: seq<real>): real
    requires s != []
  {
    if |s| == 1 then s[0] else var m := Max(s[1..]); if s[0] > m then s[0] else m
  }

  lemma {:induction false} MinMaxBound(s: seq<real>)
    requires s != []
    ensures Min(s) in s && Max(s) in s
    ensures forall x :: x in s ==> Min(s) <= x <= Max(s)
  {
    if |s| > 1 {
      MinMaxBound(s[1..]);
      assert s == [s[0]] + s[1..];
    }
  }

  /** The members of a bin are the values that carry its code. */
  lemma {:induction false} MaskedMembers(values: seq<real>, codes: seq<int>, c: int)
    requires |codes| == |values|
    ensures forall i :: 0 <= i < |values| && codes[i] == c ==> values[i] in Masked(values, codes, c)
    ensures forall x :: x in Masked(values, codes, c) ==>
              exists i :: 0 <= i < |values| && codes[i] == c && values[i] == x
    decreases |values|
  {
    if values != [] {
      var n := |values| - 1;
      MaskedMembers(values[..n], codes[..n], c);
      forall x | x in Masked(values, codes, c)
        ensures exists i :: 0 <= i < |values| && codes[i] == c && values[i] == x
      {
        if x in Masked(values[..n], codes[..n], c) {
          var i :| 0 <= i < n && codes[..n][i] == c && values[..n][i] == x;
          assert codes[i] == c && values[i] == x;
        } else {
          assert codes[n] == c && values[n] == x;
        }
      }
      forall i | 0 <= i < |values| && codes[i] == c ensures values[i] in Masked(values, codes, c) {
        if i < n {
          assert codes[..n][i] == c && values[..n][i] == values[i];
        }
      }
    }
  }

  /** Two different positions with the same code make a bin of at least two. */
  lemma {:induction false} MaskedSize(values: seq<real>, codes: seq<int>, c: int, i: int, j: int)
    requires |codes| == |values| && 0 <= i <= j < |values| && codes[i] == c && codes[j] == c
    ensures |Masked(values, codes, c)| >= if i == j then 1 else 2
    decreases |values|
  {
    var n := |values| - 1;
    if j < n {
      MaskedSize(values[..n], codes[..n], c, i, j);
    } else if i < n {
      MaskedSize(values[..n], codes[..n], c, i, i);
    }
  }

  // --- One bisection --------------------------------------------------------------------------

  function Split(bin: seq<real>): real
    requires bin != []
  {
    0.5 * (Min(bin) + Max(bin))
  }

  /** The bit a bisection appends to element i. */
  function Bit(values: seq<real>, codes: seq<int>, i: int): (b: int)
    requires |codes| == |values| && 0 <= i < |values|
    ensures b == 0 || b == 1
  {
    var bin := Masked(values, codes, codes[i]);
    if |bin| <= 1 then 0 else if values[i] >= Split(bin) then 1 else 0
  }

  function Bisect(values: seq<real>, codes: seq<int>): (next: seq<int>)
    requires |codes| == |values|
    ensures |next| == |codes|
  {
    seq(|codes|, i requires 0 <= i < |codes| => codes[i] * 2 + Bit(values, codes, i))
  }

  /** The codes after the given number of bisections. */
  function Codes(values: seq<real>, bits: nat): (codes: seq<int>)
    ensures |codes| == |values|
  {
    if bits == 0 then seq(|values|, i => 0) else Bisect(values, Codes(values, bits - 1))
  }

  lemma BisectAt(values: seq<real>, codes: seq<int>, i: int)
    requires |codes| == |values| && 0 <= i < |values|
    ensures Bisect(values, codes)[i] == codes[i] * 2 + Bit(values, codes, i)
    ensures Bisect(values, codes)[i] / 2 == codes[i]
  {
  }

  /** Element i's next code, from the extremes of its bin: alone in its bin it gets a zero; otherwise a one exactly
      from the midpoint on. */
  lemma BisectFromExtremes(values: seq<real>, codes: seq<int>, i: int, lo: int, hi: int)
    requires |codes| == |values| && 0 <= i < |values| && 0 <= lo < |values| && 0 <= hi < |values|
    requires codes[lo] == codes[i] == codes[hi]
    requires forall j :: 0 <= j < |values| && codes[j] == codes[i] ==> values[lo] <= values[j] <= values[hi]
    ensures (forall j :: 0 <= j < |values| && codes[j] == codes[i] ==> j == i) ==>
              Bisect(values, codes)[i] == 2 * codes[i]
    ensures (exists j :: 0 <= j < |values| && codes[j] == codes[i] && j != i) ==>
              Bisect(values, codes)[i] == 2 * codes[i] + if 2.0 * values[i] >= values[lo] + values[hi] then 1 else 0
  {
    BisectAt(values, codes, i);
    var bin := Masked(values, codes, codes[i]);
    MaskedMembers(values, codes, codes[i]);
    MinMaxBound(bin);
    if j :| 0 <= j < |values| && codes[j] == codes[i] && j != i {
      MaskedSize(values, codes, codes[i], if i < j then i else j, if i < j then j else i);
      hide Masked, Min, Max;
      assert Min(bin) == values[lo] && Max(bin) == values[hi];
    } else {
      OnlyMember(values, codes, i);
    }
  }

  /** A bin with one element has size one. */
  lemma {:induction false} OnlyMember(values: seq<real>, codes: seq<int>, i: int)
    requires |codes| == |values| && 0 <= i < |values|
    requires forall j :: 0 <= j < |values| && codes[j] == codes[i] ==> j == i
    ensures |Masked(values, codes, codes[i])| <= 1
    decreases |values|
  {
    var n := |values| - 1;
    if i < n {
      OnlyMember(values[..n], codes[..n], i);
    } else {
      NoMember(values[..n], codes[..n], codes[i]);
    }
  }

  lemma {:induction false} NoMember(values: seq<real>, codes: seq<int>, c: int)
    requires |codes| == |values| && c !in codes
    ensures Masked(values, codes, c) == []
    decreases |values|
  {
    if values != [] {
      NoMember(values[..|values| - 1], codes[..|values| - 1], c);
    }
  }

  method NestedBitplaneCodes(values: seq<real>, maxBits: nat) returns (codes: array<int>)
    ensures fresh(codes) && codes[..] == Codes(values, maxBits)
  {
    hide Masked, Bit, Bisect;
    codes := new int[|values|](i => 0);
    for b := 0 to maxBits
      invariant fresh(codes) && codes.Length == |values| && codes[..] == Codes(values, b)
    {
      var before := codes[..];
      var newCodes := new int[|values|](i requires 0 <= i < |values| => before[i]);
      var pending := set c | c in before;
      while pending != {}
        invariant codes[..] == before && fresh(newCodes) && newCodes.Length == |values| && newCodes != codes
        invariant forall c :: c in pending ==> c in before
        invariant forall i :: 0 <= i < |values| ==>
            newCodes[i] == if before[i] in pending then before[i] else Bisect(values, before)[i]
        decreases pending
      {
        ghost var some := Member(pending);
        var binId :| binId in pending;
        RefineBin(values, before, newCodes, binId);
        pending := pending - {binId};
      }
      codes := newCodes;
    }
  }

  /** new_codes[mask] for one bin. */
  method RefineBin(values: seq<real>, before: seq<int>, newCodes: array<int>, binId: int)
    requires |before| == |values| && newCodes.Length == |values| && binId in before
    modifies newCodes
    ensures forall i :: 0 <= i < |values| ==>
              newCodes[i] == if before[i] == binId then Bisect(values, before)[i] else old(newCodes[i])
  {
    hide Masked;
    var bin := Masked(values, before, binId);
    var k :| 0 <= k < |before| && before[k] == binId;
    MaskedSize(values, before, binId, k, k);
    var split := Split(bin);
    for i := 0 to |values|
      invariant forall x :: 0 <= x < |values| ==>
          newCodes[x] == if x < i && before[x] == binId then Bisect(values, before)[x] else old(newCodes[x])
    {
      if before[i] == binId {
        BisectAt(values, before, i);
        newCodes[i] := if |bin| <= 1 then before[i] * 2 else before[i] * 2 + (if values[i] >= split then 1 else 0);
      }
    }
  }

  // --- Nesting, range and order -------------------------------------------------------------------

  function ShiftRight(c: int, k: nat): int
    decreases k
  {
    if k == 0 then c else ShiftRight(c / 2, k - 1)
  }

  function Pow2(b: nat): nat { if b == 0 then 1 else 2 * Pow2(b - 1) }

  lemma PowersDouble(b: nat)
    ensures Pow2(0) == 1 && Pow2(b + 1) == Pow2(b) + Pow2(b)
  {
  }

  /** Dropping the low bits of the deepest codes gives the shallower codes exactly. */
  lemma {:induction false} Nested(values: seq<real>, bits: nat, maxBits: nat, i: int)
    requires bits <= maxBits && 0 <= i < |values|
    ensures ShiftRight(Codes(values, maxBits)[i], maxBits - bits) == Codes(values, bits)[i]
    decreases maxBits
  {
    if bits < maxBits {
      BisectAt(values, Codes(values, maxBits - 1), i);
      Nested(values, bits, maxBits - 1, i);
    }
  }

  lemma {:induction false} CodesInRange(values: seq<real>, bits: nat, i: int)
    requires 0 <= i < |values|
    ensures 0 <= Codes(values, bits)[i] < Pow2(bits)
  {
    if bits > 0 {
      CodesInRange(values, bits - 1, i);
      BisectAt(values, Codes(values, bits - 1), i);
    }
  }

  /** Codes keep the order of the values. */
  lemma {:induction false} CodesMonotone(values: seq<real>, bits: nat, i: int, j: int)
    requires 0 <= i < |values| && 0 <= j < |values| && values[i] <= values[j]
    ensures Codes(values, bits)[i] <= Codes(values, bits)[j]
  {
    if bits > 0 {
      CodesMonotone(values, bits - 1, i, j);
      BisectAt(values, Codes(values, bits - 1), i);
      BisectAt(values, Codes(values, bits - 1), j);
    }
  }

  // --- Bins halve ------------------------------------------------------------------------------------

  function Halved(width: real, bits: nat): real { if bits == 0 then width else Halved(width, bits - 1) / 2.0 }

  lemma {:induction false} HalvedIs(width: real, bits: nat)
    ensures Halved(width, bits) * Pow2(bits) as real == width
  {
    if bits > 0 {
      HalvedIs(width, bits - 1);
      assert Halved(width, bits) * (2 * Pow2(bits - 1)) as real == Halved(width, bits - 1) * Pow2(bits - 1) as real;
    }
  }

  /** The positions of the extreme values of a bin. */
  lemma BinExtremes(values: seq<real>, codes: seq<int>, i: int) returns (lo: int, hi: int)
    requires |codes| == |values| && 0 <= i < |values|
    ensures 0 <= lo < |values| && 0 <= hi < |values| && codes[lo] == codes[hi] == codes[i]
    ensures var bin := Masked(values, codes, codes[i]);
            bin != [] && Min(bin) == values[lo] && Max(bin) == values[hi]
    ensures forall j :: 0 <= j < |values| && codes[j] == codes[i] ==> values[lo] <= values[j] <= values[hi]
  {
    var c := codes[i];
    var bin := Masked(values, codes, c);
    MaskedSize(values, codes, c, i, i);
    MaskedMembers(values, codes, c);
    hide Masked;
    MinMaxBound(bin);
    hide Min, Max;
    lo :| 0 <= lo < |values| && codes[lo] == c && values[lo] == Min(bin);
    hi :| 0 <= hi < |values| && codes[hi] == c && values[hi] == Max(bin);
  }

  /** Two elements of one bin that get the same bit are at most half the bin's width apart. */
  lemma SameBitHalves(values: seq<real>, codes: seq<int>, i: int, j: int, lo: int, hi: int)
    requires |codes| == |values| && 0 <= i < |values| && 0 <= j < |values| && 0 <= lo < |values| && 0 <= hi < |values|
    requires codes[i] == codes[j] && Bit(values, codes, i) == Bit(values, codes, j)
    requires var bin := Masked(values, codes, codes[i]); bin != [] && Min(bin) == values[lo] && Max(bin) == values[hi]
    requires values[lo] <= values[i] <= values[hi] && values[lo] <= values[j] <= values[hi]
    ensures values[i] - values[j] <= (values[hi] - values[lo]) / 2.0
  {
    if i != j {
      MaskedSize(values, codes, codes[i], if i < j then i else j, if i < j then j else i);
      hide Masked, Min, Max;
    }
  }

  /** After b bisections every bin spans at most a 2^b-th of its block. */
  lemma {:induction false} BinSpan(values: seq<real>, bits: nat, i: int, j: int)
    requires 0 <= i < |values| && 0 <= j < |values| && Codes(values, bits)[i] == Codes(values, bits)[j]
    ensures values[i] - values[j] <= Halved(Max(values) - Min(values), bits)
  {
    hide Masked, Min, Max, Bit, Bisect;
    if bits == 0 {
      MinMaxBound(values);
      assert values[i] in values && values[j] in values;
    } else {
      var codes := Codes(values, bits - 1);
      BisectAt(values, codes, i);
      BisectAt(values, codes, j);
      assert codes[i] == codes[j] && Bit(values, codes, i) == Bit(values, codes, j);
      var lo, hi := BinExtremes(values, codes, i);
      hide Codes;
      BinSpan(values, bits - 1, hi, lo);
      SameBitHalves(values, codes, i, j, lo, hi);
    }
  }

  // --- Reconstruction ----------------------------------------------------------------------------------

  function Total(s: seq<real>): real { if s == [] then 0.0 else Total(s[..|s| - 1]) + s[|s| - 1] }

  function Mean(s: seq<real>): real
    requires s != []
  {
    Total(s) / |s| as real
  }

  /** Every element by the mean of its own bin. */
  function BinMean(values: seq<real>, codes: seq<int>, i: int): real
    requires |codes| == |values| && 0 <= i < |values|
  {
    MaskedSize(values, codes, codes[i], i, i);
    Mean(Masked(values, codes, codes[i]))
  }

  lemma Member<T>(s: set<T>) returns (c: T)
    requires s != {}
    ensures c in s
  {
    c :| c in s;
  }

  method DequantizeByBinMean(values: seq<real>, codes: seq<int>) returns (out: array<real>)
    requires |codes| == |values|
    ensures fresh(out) && out.Length == |values|
    ensures forall i :: 0 <= i < |values| ==> out[i] == BinMean(values, codes, i)
  {
    out := new real[|values|];
    var pending := set c | c in codes;
    while pending != {}
      invariant forall c :: c in pending ==> c in codes
      invariant forall i :: 0 <= i < |values| && codes[i] !in pending ==> out[i] == BinMean(values, codes, i)
      decreases pending
    {
      ghost var some := Member(pending);
      var code :| code in pending;
      FillBin(values, codes, out, code);
      pending := pending - {code};
    }
  }

  /** out[mask] for one bin. */
  method FillBin(values: seq<real>, codes: seq<int>, out: array<real>, code: int)
    requires |codes| == |values| && out.Length == |values| && code in codes
    modifies out
    ensures forall i :: 0 <= i < |values| ==>
              out[i] == if codes[i] == code then BinMean(values, codes, i) else old(out[i])
  {
    hide Masked;
    var k :| 0 <= k < |codes| && codes[k] == code;
    MaskedSize(values, codes, code, k, k);
    var mean := Mean(Masked(values, codes, code));
    for i := 0 to |values|
      invariant forall x :: 0 <= x < |values| ==>
          out[x] == if x < i && codes[x] == code then BinMean(values, codes, x) else old(out[x])
    {
      if codes[i] == code {
        out[i] := mean;
      }
    }
  }

  lemma {:induction false} TotalBetween(s: seq<real>, lo: real, hi: real)
    requires forall x :: x in s ==> lo <= x <= hi
    ensures lo * |s| as real <= Total(s) <= hi * |s| as real
  {
    if s != [] {
      var n := |s| - 1;
      forall x | x in s[..n] ensures lo <= x <= hi {
        assert x in s;
      }
      TotalBetween(s[..n], lo, hi);
      assert s[n] in s;
      assert lo * (n + 1) as real == lo * n as real + lo && hi * (n + 1) as real == hi * n as real + hi;
    }
  }

  lemma MeanBetween(s: seq<real>, lo: real, hi: real)
    requires s != [] && forall x :: x in s ==> lo <= x <= hi
    ensures lo <= Mean(s) <= hi
  {
    TotalBetween(s, lo, hi);
    QuotientBetween(Total(s), |s| as real, lo, hi);
  }

  lemma QuotientBetween(t: real, n: real, lo: real, hi: real)
    requires 0.0 < n && lo * n <= t <= hi * n
    ensures lo <= t / n <= hi
  {
    var q := t / n;
    assert q * n == t;
    assert q < lo ==> q * n < lo * n;
    assert q > hi ==> q * n > hi * n;
  }

  /** Every element reconstructs within the width its bin has left. */
  lemma ReconstructionBound(values: seq<real>, bits: nat, i: int)
    requires 0 <= i < |values|
    ensures var w := Halved(Max(values) - Min(values), bits);
            -w <= values[i] - BinMean(values, Codes(values, bits), i) <= w
  {
    var codes := Codes(values, bits);
    var bin := Masked(values, codes, codes[i]);
    var w := Halved(Max(values) - Min(values), bits);
    hide Codes, Halved, Min, Max, Mean;
    MaskedSize(values, codes, codes[i], i, i);
    forall x | x in bin ensures values[i] - w <= x <= values[i] + w {
      var j := MemberAt(values, codes, codes[i], x);
      BinSpan(values, bits, i, j);
      BinSpan(values, bits, j, i);
    }
    hide Masked;
    MeanBetween(bin, values[i] - w, values[i] + w);
  }

  lemma MemberAt(values: seq<real>, codes: seq<int>, c: int, x: real) returns (j: int)
    requires |codes| == |values| && x in Masked(values, codes, c)
    ensures 0 <= j < |values| && codes[j] == c && values[j] == x
  {
    MaskedMembers(values, codes, c);
    hide Masked;
    j :| 0 <= j < |values| && codes[j] == c && values[j] == x;
  }

  // --- The law of total variance --------------------------------------------------------------------------

  function InBin(values: seq<real>, codes: seq<int>, c: int): int -> real {
    i => if 0 <= i < |values| && i < |codes| && codes[i] == c then values[i] else 0.0
  }

  function Indicator(codes: seq<int>, c: int): int -> real {
    i => if 0 <= i < |codes| && codes[i] == c then 1.0 else 0.0
  }

  lemma {:induction false} MaskedTotals(values: seq<real>, codes: seq<int>, c: int)
    requires |codes| == |values|
    ensures Total(Masked(values, codes, c)) == Sum(|values|, InBin(values, codes, c))
    ensures |Masked(values, codes, c)| as real == Sum(|values|, Indicator(codes, c))
    decreases |values|
  {
    if values != [] {
      var n := |values| - 1;
      MaskedTotals(values[..n], codes[..n], c);
      hide Sum, Total;
      SumCong(n, InBin(values, codes, c), InBin(values[..n], codes[..n], c));
      SumCong(n, Indicator(codes, c), Indicator(codes[..n], c));
      SumStep(n, InBin(values, codes, c));
      SumStep(n, Indicator(codes, c));
      TotalSnoc(Masked(values[..n], codes[..n], c), values[n]);
    } else {
      SumZero(0, Indicator(codes, c));
    }
  }

  lemma TotalSnoc(s: seq<real>, x: real)
    ensures Total(s + [x]) == Total(s) + x && Total(s + []) == Total(s)
  {
    assert (s + [x])[..|s|] == s && s + [] == s;
  }

  /** The mean of a bin, zero for an empty one. */
  function CodeMean(values: seq<real>, codes: seq<int>, c: int): real
    requires |codes| == |values|
  {
    var bin := Masked(values, codes, c);
    if bin == [] then 0.0 else Mean(bin)
  }

  lemma BinMeanIsCodeMean(values: seq<real>, codes: seq<int>, i: int)
    requires |codes| == |values| && 0 <= i < |values|
    ensures BinMean(values, codes, i) == CodeMean(values, codes, codes[i])
  {
    MaskedSize(values, codes, codes[i], i, i);
  }

  /** What element i keeps after its bin's mean is taken away. */
  function Residual(values: seq<real>, codes: seq<int>): int -> real {
    i => if |codes| == |values| && 0 <= i < |values| then values[i] - CodeMean(values, codes, codes[i]) else 0.0
  }

  lemma ResidualAt(values: seq<real>, codes: seq<int>, i: int)
    requires |codes| == |values| && 0 <= i < |values|
    ensures Residual(values, codes)(i) == values[i] - CodeMean(values, codes, codes[i])
  {
  }

  function Squares(f: int -> real): int -> real { i => Sq(f(i)) }

  /** The squared error of the per-bin-mean reconstruction. */
  function SquaredError(values: seq<real>, codes: seq<int>): real {
    Sum(|values|, Squares(Residual(values, codes)))
  }

  function Prod(a: real, b: real): real { a * b }

  /** Within one bin the residuals cancel. */
  lemma BinBalances(values: seq<real>, codes: seq<int>, c: int, f: int -> real)
    requires |codes| == |values|
    requires forall i :: 0 <= i < |values| ==> f(i) == if codes[i] == c then Residual(values, codes)(i) else 0.0
    ensures Sum(|values|, f) == 0.0
  {
    hide Masked;
    var n, m, bin := |values|, CodeMean(values, codes, c), Masked(values, codes, c);
    var share := i => if 0 <= i < |codes| && codes[i] == c then m else 0.0;
    MaskedTotals(values, codes, c);
    MeanTimesCount(bin, m);
    forall i | 0 <= i < n ensures f(i) == InBin(values, codes, c)(i) - share(i) {
      ResidualAt(values, codes, i);
    }
    hide Sum, Residual, CodeMean, Mean, Total, Prod;
    ShareOfBin(codes, c, m, share);
    SumOfDifference(n, InBin(values, codes, c), share, f);
  }

  lemma ShareOfBin(codes: seq<int>, c: int, m: real, share: int -> real)
    requires forall i :: 0 <= i < |codes| ==> share(i) == if codes[i] == c then m else 0.0
    ensures Sum(|codes|, share) == Prod(m, Sum(|codes|, Indicator(codes, c)))
  {
    SumScale(|codes|, m, Indicator(codes, c), share);
  }

  lemma MeanTimesCount(bin: seq<real>, m: real)
    requires m == if bin == [] then 0.0 else Mean(bin)
    ensures Prod(m, |bin| as real) == Total(bin)
  {
  }

  /** Residuals are orthogonal to everything that is constant on bins. */
  lemma ResidualOrthogonal(values: seq<real>, codes: seq<int>, k: nat, G: int -> real, f: int -> real)
    requires |codes| == |values| && forall i :: 0 <= i < |codes| ==> 0 <= codes[i] < k
    requires forall i :: 0 <= i < |values| ==> f(i) == Prod(Residual(values, codes)(i), G(codes[i]))
    ensures Sum(|values|, f) == 0.0
  {
    hide Sum, Prod, Residual;
    var n := |values|;
    var F := (i: int, c: int) => if 0 <= i < |codes| && codes[i] == c then f(i) else 0.0;
    SumSwap(n, k, F);
    forall i | 0 <= i < n ensures RowSum(k, F)(i) == f(i) {
      SumOnly(k, c => F(i, c), codes[i]);
      assert RowSum(k, F)(i) == Sum(k, c => F(i, c));
    }
    SumCong(n, RowSum(k, F), f);
    forall c | 0 <= c < k ensures ColSum(n, F)(c) == 0.0 {
      BinOrthogonal(values, codes, c, G, f, i => F(i, c));
      assert ColSum(n, F)(c) == Sum(n, i => F(i, c));
    }
    SumZero(k, ColSum(n, F));
  }

  lemma BinOrthogonal(values: seq<real>, codes: seq<int>, c: int, G: int -> real, f: int -> real, g: int -> real)
    requires |codes| == |values|
    requires forall i :: 0 <= i < |values| ==> f(i) == Prod(Residual(values, codes)(i), G(codes[i]))
    requires forall i :: 0 <= i < |values| ==> g(i) == if codes[i] == c then f(i) else 0.0
    ensures Sum(|values|, g) == 0.0
  {
    hide Sum, Residual;
    var r := Residual(values, codes);
    var inBin := i => if 0 <= i < |codes| && codes[i] == c then r(i) else 0.0;
    BinBalances(values, codes, c, inBin);
    forall i | 0 <= i < |values| ensures g(i) == G(c) * inBin(i) {
      assert f(i) == r(i) * G(codes[i]);
    }
    SumScale(|values|, G(c), inBin, g);
  }

  /** How far the mean of fine bin c is from the mean of the coarse bin that holds it. */
  function MeanGap(values: seq<real>, fine: seq<int>, coarse: seq<int>): int -> real {
    c => if |fine| == |values| == |coarse| then CodeMean(values, fine, c) - CodeMean(values, coarse, c / 2) else 0.0
  }

  function GapAt(values: seq<real>, fine: seq<int>, coarse: seq<int>): int -> real {
    i => if 0 <= i < |fine| then MeanGap(values, fine, coarse)(fine[i]) else 0.0
  }

  /** Refining every bin in two lowers the squared error by exactly the spread of the new means. */
  lemma TotalVariance(values: seq<real>, fine: seq<int>, coarse: seq<int>, k: nat)
    requires |fine| == |values| == |coarse|
    requires forall i :: 0 <= i < |fine| ==> coarse[i] == fine[i] / 2 && 0 <= fine[i] < k
    ensures SquaredError(values, coarse)
              == SquaredError(values, fine) + Sum(|values|, Squares(GapAt(values, fine, coarse)))
  {
    hide *;
    var n, gap := |values|, MeanGap(values, fine, coarse);
    var a, b, r := Residual(values, fine), GapAt(values, fine, coarse), Residual(values, coarse);
    var cross := i => Prod(a(i), b(i));
    forall i | 0 <= i < n
      ensures Squares(r)(i) == Squares(a)(i) + (Squares(b)(i) + 2.0 * cross(i))
      ensures cross(i) == Prod(a(i), gap(fine[i]))
    {
      ResidualGap(values, fine, coarse, i);
      SquaresOfSum(a, b, r, i);
      assert cross(i) == Prod(a(i), b(i));
    }
    ResidualOrthogonal(values, fine, k, gap, cross);
    SumWithoutCross(n, Squares(a), Squares(b), cross, Squares(r));
    SquaredErrorIs(values, fine);
    SquaredErrorIs(values, coarse);
  }

  lemma SumWithoutCross(n: nat, a: int -> real, b: int -> real, cross: int -> real, r: int -> real)
    requires forall i :: 0 <= i < n ==> r(i) == a(i) + (b(i) + 2.0 * cross(i))
    requires Sum(n, cross) == 0.0
    ensures Sum(n, r) == Sum(n, a) + Sum(n, b)
  {
    hide Sum;
    var rest := i => b(i) + 2.0 * cross(i);
    SumLinear(n, 1.0, b, 2.0, cross, rest);
    SumLinear(n, 1.0, a, 1.0, rest, r);
  }

  lemma SquaredErrorIs(values: seq<real>, codes: seq<int>)
    ensures SquaredError(values, codes) == Sum(|values|, Squares(Residual(values, codes)))
  {
  }

  lemma ResidualGap(values: seq<real>, fine: seq<int>, coarse: seq<int>, i: int)
    requires |fine| == |values| == |coarse| && 0 <= i < |values| && coarse[i] == fine[i] / 2
    ensures GapAt(values, fine, coarse)(i) == MeanGap(values, fine, coarse)(fine[i])
    ensures Residual(values, coarse)(i) == Residual(values, fine)(i) + GapAt(values, fine, coarse)(i)
  {
    hide CodeMean;
    var v, mf, mc := values[i], CodeMean(values, fine, fine[i]), CodeMean(values, coarse, coarse[i]);
    var a, b, r := Residual(values, fine), GapAt(values, fine, coarse), Residual(values, coarse);
    assert a(i) == v - mf && r(i) == v - mc && b(i) == MeanGap(values, fine, coarse)(fine[i]) == mf - mc;
  }

  lemma SquaresOfSum(a: int -> real, b: int -> real, r: int -> real, i: int)
    requires r(i) == a(i) + b(i)
    ensures Squares(r)(i) == Squares(a)(i) + (Squares(b)(i) + 2.0 * Prod(a(i), b(i)))
  {
    hide Sq, Prod, Squares;
    SquareOfSum(a(i), b(i));
    SquaresAt(a, i);
    SquaresAt(b, i);
    SquaresAt(r, i);
  }

  lemma SquaresAt(f: int -> real, i: int)
    ensures Squares(f)(i) == Sq(f(i))
  {
  }

  lemma SquareOfSum(a: real, b: real)
    ensures Sq(a + b) == Sq(a) + (Sq(b) + 2.0 * Prod(a, b))
  {
  }

  lemma SquaresNonneg(n: nat, f: int -> real)
    ensures 0.0 <= Sum(n, Squares(f))
  {
    var zero := i => 0.0;
    SumZero(n, zero);
    forall i | 0 <= i < n ensures zero(i) <= Squares(f)(i) {
      assert Squares(f)(i) == Sq(f(i));
    }
    SumLe(n, zero, Squares(f));
  }

  lemma OneMoreBit(values: seq<real>, bits: nat)
    ensures SquaredError(values, Codes(values, bits + 1)) <= SquaredError(values, Codes(values, bits))
  {
    var fine, coarse := Codes(values, bits + 1), Codes(values, bits);
    forall i | 0 <= i < |values| ensures coarse[i] == fine[i] / 2 && 0 <= fine[i] < Pow2(bits + 1) {
      BisectAt(values, coarse, i);
      CodesInRange(values, bits + 1, i);
    }
    hide *;
    TotalVariance(values, fine, coarse, Pow2(bits + 1));
    SquaresNonneg(|values|, GapAt(values, fine, coarse));
  }

  /** Materializing more bits never raises the squared error of a block. */
  lemma {:induction false} ErrorNeverRises(values: seq<real>, bits: nat, more: nat)
    requires bits <= more
    ensures SquaredError(values, Codes(values, more)) <= SquaredError(values, Codes(values, bits))
    decreases more
  {
    hide *;
    if bits < more {
      ErrorNeverRises(values, bits, more - 1);
      OneMoreBit(values, more - 1);
    }
  }

  function Values(values: seq<real>): int -> real { i => if 0 <= i < |values| then values[i] else 0.0 }

  /** The reconstruction keeps the sum of its block, at every precision. */
  lemma SumConserved(values: seq<real>, bits: nat)
    ensures Sum(|values|, Values(ReconstructBlock(values, bits))) == Sum(|values|, Values(values))
  {
    var n, codes := |values|, Codes(values, bits);
    var mean, value, r := Values(ReconstructBlock(values, bits)), Values(values), Residual(values, codes);
    var one := (c: int) => 1.0;
    hide Codes, Sum, Residual;
    forall i | 0 <= i < n
      ensures 0 <= codes[i] < Pow2(bits) && r(i) == value(i) - mean(i) && r(i) == Prod(r(i), one(codes[i]))
    {
      CodesInRange(values, bits, i);
      ResidualIsLoss(values, bits, i);
    }
    hide *;
    ResidualOrthogonal(values, codes, Pow2(bits), one, r);
    SumOfDifference(n, value, mean, r);
  }

  lemma SumOfDifference(n: nat, a: int -> real, b: int -> real, r: int -> real)
    requires forall i :: 0 <= i < n ==> r(i) == a(i) - b(i)
    ensures Sum(n, r) == Sum(n, a) - Sum(n, b)
  {
    SumLinear(n, 1.0, a, -1.0, b, r);
  }

  lemma ResidualIsLoss(values: seq<real>, bits: nat, i: int)
    requires 0 <= i < |values|
    ensures Residual(values, Codes(values, bits))(i) == Values(values)(i) - Values(ReconstructBlock(values, bits))(i)
  {
    hide Codes, CodeMean, BinMean;
    ResidualAt(values, Codes(values, bits), i);
    BinMeanIsCodeMean(values, Codes(values, bits), i);
  }

  // --- A whole channel -------------------------------------------------------------------------------------

  function ReconstructBlock(block: seq<real>, bits: nat): seq<real> {
    seq(|block|, i requires 0 <= i < |block| => BinMean(block, Codes(block, bits), i))
  }

  /** A channel materialized block by block, the last one possibly short. */
  function Materialize(row: seq<real>, bits: nat, blockSize: nat): seq<real>
    requires blockSize > 0
    decreases |row|
  {
    if |row| <= blockSize then ReconstructBlock(row, bits)
    else ReconstructBlock(row[..blockSize], bits) + Materialize(row[blockSize..], bits, blockSize)
  }

  /** Codes are built once at the deepest precision and shifted down to the one asked for. */
  method QuantizeChannelNested(row: seq<real>, bits: nat, maxBits: nat, blockSize: nat) returns (out: seq<real>)
    requires 1 <= bits <= maxBits && blockSize > 0
    ensures out == Materialize(row, bits, blockSize)
  {
    hide ReconstructBlock, Codes, Materialize;
    out := [];
    var start := 0;
    MaterializeEmpty(bits, blockSize);
    while start < |row|
      invariant start <= |row| && (start == |row| || |out| == start)
      invariant start < |row| ==> Materialize(row, bits, blockSize) == out + Materialize(row[start..], bits, blockSize)
      invariant start == |row| ==> out == Materialize(row, bits, blockSize)
    {
      var end := if start + blockSize < |row| then start + blockSize else |row|;
      var block := QuantizeBlock(row[start..end], bits, maxBits);
      MaterializeStep(row[start..], bits, blockSize);
      BlockLength(row[start..end], bits);
      assert row[start..][..end - start] == row[start..end] && row[start..][end - start..] == row[end..];
      out := out + block;
      start := end;
    }
  }

  lemma BlockLength(block: seq<real>, bits: nat)
    ensures |ReconstructBlock(block, bits)| == |block|
  {
  }

  lemma MaterializeEmpty(bits: nat, blockSize: nat)
    requires blockSize > 0
    ensures Materialize([], bits, blockSize) == []
  {
  }

  lemma MaterializeStep(row: seq<real>, bits: nat, blockSize: nat)
    requires blockSize > 0
    ensures Materialize(row, bits, blockSize) ==
      if |row| <= blockSize then ReconstructBlock(row[..|row|], bits)
      else ReconstructBlock(row[..blockSize], bits) + Materialize(row[blockSize..], bits, blockSize)
  {
    assert row[..|row|] == row;
  }

  method QuantizeBlock(block: seq<real>, bits: nat, maxBits: nat) returns (r: seq<real>)
    requires bits <= maxBits
    ensures r == ReconstructBlock(block, bits)
  {
    var maxCodes := NestedBitplaneCodes(block, maxBits);
    var deep := maxCodes[..];
    var codes := seq(|block|, i requires 0 <= i < |block| => ShiftRight(deep[i], maxBits - bits));
    forall i | 0 <= i < |block| ensures codes[i] == Codes(block, bits)[i] {
      Nested(block, bits, maxBits, i);
    }
    assert codes == Codes(block, bits);
    hide Codes, BinMean;
    var out := DequantizeByBinMean(block, codes);
    r := out[..];
  }
}
