/** The W4A16 linear layer: tiled, split along K, its partial sums delivered by atomic adds in any order. */
module SplitKLinear {
  import opened Common
  import opened Sums
  import opened BlockInt4
  import opened PackedWeights

  function CDiv(a: int, b: int): int
    requires 0 < b
  {
    (a + b - 1) / b
  }

  lemma CDivCovers(a: int, b: int)
    requires 0 < b && 0 <= a
    ensures a <= CDiv(a, b) * b < a + b
    ensures 0 <= CDiv(a, b) && (0 < a ==> 0 < CDiv(a, b))
  {
    var q, r := CDiv(a, b), (a + b - 1) % b;
    assert a + b - 1 == q * b + r;
    assert q <= -1 ==> q * b <= -b;
    assert q == 0 ==> q * b == 0;
  }

  lemma CDivLeast(a: int, b: int, q: int)
    requires 0 < b && 0 <= a && a <= q * b
    ensures CDiv(a, b) <= q
  {
    CDivCovers(a, b);
    var d := CDiv(a, b) - q;
    assert CDiv(a, b) * b == d * b + q * b;
    assert d >= 1 ==> d * b >= b;
  }

  // --- Tile widths -------------------------------------------------------------------

  predicate LegalGroup(group: nat)
    requires 0 < group
  {
    128 % group == 0 || group % 128 == 0
  }

  function MaxInt(a: int, b: int): int { if a < b then b else a }

  predicate Multiple(a: int, b: int) { 0 < b && a % b == 0 }

  lemma MultipleTimes(q: int, a: int, b: int)
    requires Multiple(a, b)
    ensures Multiple(q * a, b) && Multiple(a * q, b)
  {
    var d := a / b;
    assert a == d * b;
    assert q * a == (q * d) * b && a * q == (q * d) * b;
    QuotientIs((q * d) * b, b, q * d);
  }

  lemma MultipleSum(a: int, c: int, b: int)
    requires Multiple(a, b) && Multiple(c, b)
    ensures Multiple(a + c, b)
  {
    var d, e := a / b, c / b;
    assert a == d * b && c == e * b;
    assert a + c == (d + e) * b;
    QuotientIs((d + e) * b, b, d + e);
  }

  lemma MultipleGap(d: int, width: int, b: int)
    requires Multiple(d, b) && Multiple(width, b) && d < width
    ensures d + b <= width
  {
    var p, q := d / b, width / b;
    assert d == p * b && width == q * b;
    var g := q - p;
    assert width - d == g * b;
    assert g <= 0 ==> g * b <= 0;
    assert g >= 1 ==> g * b >= b;
  }

  lemma MultipleTransitive(a: int, b: int, c: int)
    requires Multiple(a, b) && Multiple(b, c)
    ensures Multiple(a, c)
  {
    assert a == a / b * b;
    MultipleTimes(a / b, b, c);
  }

  /** Only one divides a power of two oddly. */
  lemma {:induction false} OddFactor(g: nat, q: nat, p: nat)
    requires q % 2 == 1 && (p == 128 || p == 64 || p == 32 || p == 16 || p == 8 || p == 4 || p == 2 || p == 1)
    requires g * q == p
    ensures q == 1
    decreases p
  {
    if p == 1 {
      assert q >= 2 && g >= 1 ==> g * q >= 2;
    } else {
      var h := g / 2;
      assert g % 2 == 0 by {
        assert q == 2 * (q / 2) + 1;
        assert g * q == 2 * (g * (q / 2)) + g;
      }
      assert g == 2 * h;
      assert h * q * 2 == p;
      OddFactor(h, q, p / 2);
    }
  }

  lemma DividesHalf(group: int)
    requires 0 < group <= 64 && 128 % group == 0
    ensures Multiple(64, group)
  {
    var q := 128 / group;
    assert group * q == 128;
    assert q <= 1 ==> group * q <= 64;
    if q % 2 == 1 {
      OddFactor(group, q, 128);
    }
    assert group * (q / 2) == 64;
    QuotientIs(64, group, q / 2);
  }

  /** A tile of at least 64 columns, or of one group if that is wider, holds whole groups and whole bytes. */
  lemma TileHoldsGroups(group: nat, base: int)
    requires 0 < group && LegalGroup(group) && (base == 64 || base == 128)
    ensures var bk := MaxInt(base, group);
            0 < bk && Multiple(bk, group) && Multiple(bk, 2)
  {
    if group < base {
      if group % 128 != 0 && base == 64 {
        DividesHalf(group);
      }
    } else {
      QuotientIs(group, group, 1);
      if group % 128 != 0 {
        QuotientIs(128, group, if group < 128 then 128 / group else 1);
        DivisorAbove(group);
      }
    }
  }

  lemma DivisorAbove(group: int)
    requires 64 <= group && 128 % group == 0
    ensures group % 2 == 0
  {
    var q := 128 / group;
    assert group * q == 128;
    assert q >= 3 ==> group * q >= 192;
    assert q <= 0 ==> group * q <= 0;
    assert q == 1 || q == 2;
  }

  // --- Masked loads ---------------------------------------------------------------------

  ghost predicate Operands(x: Matrix, w: Weights) { WellShaped(w) && Shape(x, |x|, w.k) }

  /** x[offs_m, offs_k] under its mask. */
  function LoadX(x: Matrix, w: Weights, m: nat, kk: nat): real
    requires Operands(x, w)
  {
    if m < |x| && kk < w.k then x[m][kk] else 0.0
  }

  function LoadByte(w: Weights, n: nat, kb: nat): int
    requires WellShaped(w)
  {
    if n < w.n && kb < w.kb2 then w.packed[n][kb] else 0
  }

  function LoadScale(w: Weights, n: nat, g: nat): real
    requires WellShaped(w)
  {
    if n < w.n && g < w.ng then w.scales[n][g] else 0.0
  }

  function LoadZero(w: Weights, n: nat, g: nat): int
    requires WellShaped(w)
  {
    if w.zeros.None? then 8 else if n < w.n && g < w.ng then w.zeros.value[n][g] else 8
  }

  /** Nibble t of the joined and regrouped bytes of a tile that starts at k0. */
  function LoadNibble(w: Weights, n: nat, k0: nat, t: nat): int
    requires WellShaped(w)
  {
    var b := LoadByte(w, n, k0 / 2 + t / 2);
    if t % 2 == 0 then b % 16 else b / 16
  }

  lemma DivNonneg(a: int, b: int)
    requires 0 <= a && 0 < b
    ensures 0 <= a / b
  {
    var q, r := a / b, a % b;
    assert q * b + r == a;
    assert q <= -1 ==> q * b <= -b;
  }

  /** Element t of the tile of weight row n that starts at k0: the nibble, minus its group's zero point,
      times its group's scale, and zero outside the masks. */
  function TileWeight(w: Weights, n: nat, k0: nat, t: nat): real
    requires WellShaped(w)
  {
    DivNonneg(k0, w.group);
    DivNonneg(t, w.group);
    var g := k0 / w.group + t / w.group;
    var v := Dequant(LoadNibble(w, n, k0, t), LoadZero(w, n, g), LoadScale(w, n, g));
    if n < w.n && k0 + t < w.k then v else 0.0
  }

  lemma NibbleLinesUp(w: Weights, n: nat, k0: nat, t: nat)
    requires WellShaped(w) && n < w.n && k0 % 2 == 0 && k0 + t < w.k
    ensures LoadNibble(w, n, k0, t) == Nibbles(w.packed[n])[k0 + t]
  {
    var kk := k0 + t;
    assert kk / 2 == k0 / 2 + t / 2 && kk % 2 == t % 2;
  }

  lemma GroupLinesUp(k0: nat, t: nat, group: int)
    requires Multiple(k0, group)
    ensures (k0 + t) / group == k0 / group + t / group
  {
    var g0, g1, r := k0 / group, t / group, t % group;
    assert k0 == g0 * group && t == g1 * group + r;
    assert k0 + t == (g0 + g1) * group + r;
    QuotientIs(k0 + t, group, g0 + g1);
  }

  /** In a tile that starts on a group boundary, the unmasked lanes hold the dense weights. */
  lemma TileWeightIsDense(w: Weights, n: nat, k0: nat, t: nat)
    requires WellShaped(w) && Multiple(k0, w.group) && Multiple(k0, 2)
    ensures n < w.n ==> TileWeight(w, n, k0, t) == if k0 + t < w.k then Dense(w, n, k0 + t) else 0.0
    ensures n >= w.n ==> TileWeight(w, n, k0, t) == 0.0
  {
    if n < w.n && k0 + t < w.k {
      NibbleLinesUp(w, n, k0, t);
      GroupLinesUp(k0, t, w.group);
      GroupOf(w, k0 + t);
      hide Dequant, Nibbles, LoadNibble;
    }
  }

  function Times(a: real, b: real): real { a * b }

  // --- One program ------------------------------------------------------------------------

  /** What column kk of the reduction adds to output (m, n); masked lanes add nothing. */
  function Term(x: Matrix, w: Weights, m: nat, n: nat): int -> real
    requires Operands(x, w)
  {
    kk => if 0 <= kk < w.k && m < |x| && n < w.n then Times(x[m][kk], Dense(w, n, kk)) else 0.0
  }

  /** The partial sum of one program's stretch of K. */
  function Partial(x: Matrix, w: Weights, m: nat, n: nat, kLo: int, width: nat): real
    requires Operands(x, w)
  {
    Sum(width, t => Term(x, w, m, n)(kLo + t))
  }

  /** One tile of the dot product, lane by lane. */
  function TileDot(x: Matrix, w: Weights, m: nat, n: nat, k0: nat, bk: nat): real
    requires Operands(x, w)
  {
    Sum(bk, t => if t < 0 then 0.0 else Times(LoadX(x, w, m, k0 + t), TileWeight(w, n, k0, t)))
  }

  lemma TermAt(x: Matrix, w: Weights, m: nat, n: nat, kk: nat)
    requires Operands(x, w)
    ensures Term(x, w, m, n)(kk) == if kk < w.k && m < |x| && n < w.n then Times(x[m][kk], Dense(w, n, kk)) else 0.0
  {
  }

  lemma LaneIsTerm(x: Matrix, w: Weights, m: nat, n: nat, k0: nat, t: nat)
    requires Operands(x, w) && Multiple(k0, w.group) && Multiple(k0, 2)
    ensures Times(LoadX(x, w, m, k0 + t), TileWeight(w, n, k0, t)) == Term(x, w, m, n)(k0 + t)
  {
    TermAt(x, w, m, n, k0 + t);
    if n < w.n && m < |x| && k0 + t < w.k {
      TileWeightIsDense(w, n, k0, t);
      hide TileWeight, Dense, Times;
    }
  }

  lemma TileDotIsPartial(x: Matrix, w: Weights, m: nat, n: nat, k0: nat, bk: nat)
    requires Operands(x, w) && Multiple(k0, w.group) && Multiple(k0, 2)
    ensures TileDot(x, w, m, n, k0, bk) == Partial(x, w, m, n, k0, bk)
  {
    hide Sum, Term, TileWeight, LoadX;
    var f := t => if t < 0 then 0.0 else Times(LoadX(x, w, m, k0 + t), TileWeight(w, n, k0, t));
    var g := t => Term(x, w, m, n)(k0 + t);
    forall t | 0 <= t < bk ensures f(t) == g(t) {
      LaneIsTerm(x, w, m, n, k0, t);
      assert f(t) == Times(LoadX(x, w, m, k0 + t), TileWeight(w, n, k0, t));
    }
    SumCong(bk, f, g);
  }

  lemma PartialGrows(x: Matrix, w: Weights, m: nat, n: nat, kLo: int, width: nat, bk: nat)
    requires Operands(x, w)
    ensures Partial(x, w, m, n, kLo, width + bk)
              == Partial(x, w, m, n, kLo, width) + Partial(x, w, m, n, kLo + width, bk)
  {
    hide Sum, Term;
    SumSplit(width + bk, width, t => Term(x, w, m, n)(kLo + t), t => Term(x, w, m, n)(kLo + width + t));
    SumCong(bk, t => Term(x, w, m, n)(kLo + width + t), t => Term(x, w, m, n)((kLo + width) + t));
  }

  /** A program's accumulator after its whole stretch of K: one partial sum per lane. */
  method Program(x: Matrix, w: Weights, pidM: nat, pidN: nat, pidK: nat, bm: nat, bn: nat, bk: nat, kPerSplit: nat)
    returns (acc: Matrix)
    requires Operands(x, w) && 0 < bk && Multiple(bk, w.group) && Multiple(bk, 2) && Multiple(kPerSplit, bk)
    ensures Shape(acc, bm, bn)
    ensures forall a, b :: 0 <= a < bm && 0 <= b < bn ==>
      0 <= pidM * bm + a && 0 <= pidN * bn + b && 0 <= pidK * kPerSplit
      && acc[a][b] == Partial(x, w, pidM * bm + a, pidN * bn + b, pidK * kPerSplit, kPerSplit)
  {
    hide TileDot, Partial, Multiple;
    var mLo, nLo := pidM * bm, pidN * bn;
    var kLo := pidK * kPerSplit;
    acc := ZeroTile(x, w, mLo, nLo, bm, bn, kLo);
    var k0 := kLo;
    StretchIsAligned(pidK, kPerSplit, bk, w.group);
    while k0 < kLo + kPerSplit
      invariant kLo <= k0 <= kLo + kPerSplit
      invariant Multiple(k0 - kLo, bk) && Multiple(k0, w.group) && Multiple(k0, 2)
      invariant Shape(acc, bm, bn)
      invariant forall a, b :: 0 <= a < bm && 0 <= b < bn ==>
                  acc[a][b] == Partial(x, w, mLo + a, nLo + b, kLo, k0 - kLo)
      decreases kLo + kPerSplit - k0
    {
      acc := AddTile(x, w, acc, mLo, nLo, bm, bn, kLo, k0, bk);
      MultipleGap(k0 - kLo, kPerSplit, bk);
      NextTileAligned(k0, kLo, bk, w.group);
      k0 := k0 + bk;
    }
  }

  function ZeroTile(x: Matrix, w: Weights, mLo: nat, nLo: nat, bm: nat, bn: nat, kLo: nat): (acc: Matrix)
    requires Operands(x, w)
    ensures Shape(acc, bm, bn)
    ensures forall a, b :: 0 <= a < bm && 0 <= b < bn ==> acc[a][b] == Partial(x, w, mLo + a, nLo + b, kLo, 0)
  {
    seq(bm, a requires 0 <= a < bm => seq(bn, b requires 0 <= b < bn => 0.0))
  }

  /** acc += dot(x, w) over one tile. */
  function AddTile(x: Matrix, w: Weights, acc: Matrix, mLo: nat, nLo: nat, bm: nat, bn: nat, kLo: nat, k0: nat,
                   bk: nat): (next: Matrix)
    requires Operands(x, w) && Shape(acc, bm, bn) && kLo <= k0 && Multiple(k0, w.group) && Multiple(k0, 2)
    requires forall a, b :: 0 <= a < bm && 0 <= b < bn ==> acc[a][b] == Partial(x, w, mLo + a, nLo + b, kLo, k0 - kLo)
    ensures Shape(next, bm, bn)
    ensures forall a, b :: 0 <= a < bm && 0 <= b < bn ==>
              next[a][b] == Partial(x, w, mLo + a, nLo + b, kLo, k0 + bk - kLo)
  {
    assert forall a, b :: 0 <= a < bm && 0 <= b < bn ==>
        acc[a][b] + TileDot(x, w, mLo + a, nLo + b, k0, bk) == Partial(x, w, mLo + a, nLo + b, kLo, k0 + bk - kLo) by {
      hide TileDot, Partial, Multiple;
      forall a, b | 0 <= a < bm && 0 <= b < bn
        ensures acc[a][b] + TileDot(x, w, mLo + a, nLo + b, k0, bk)
                  == Partial(x, w, mLo + a, nLo + b, kLo, k0 + bk - kLo)
      {
        TileDotIsPartial(x, w, mLo + a, nLo + b, k0, bk);
        PartialGrows(x, w, mLo + a, nLo + b, kLo, k0 - kLo, bk);
      }
    }
    seq(bm, a requires 0 <= a < bm => seq(bn, b requires 0 <= b < bn =>
      acc[a][b] + TileDot(x, w, mLo + a, nLo + b, k0, bk)))
  }

  lemma StretchIsAligned(pidK: nat, kPerSplit: nat, bk: nat, group: nat)
    requires Multiple(bk, group) && Multiple(bk, 2) && Multiple(kPerSplit, bk)
    ensures Multiple(pidK * kPerSplit, group) && Multiple(pidK * kPerSplit, 2)
    ensures Multiple(0, bk)
  {
    MultipleTransitive(kPerSplit, bk, group);
    MultipleTransitive(kPerSplit, bk, 2);
    MultipleTimes(pidK, kPerSplit, group);
    MultipleTimes(pidK, kPerSplit, 2);
  }

  lemma NextTileAligned(k0: nat, kLo: nat, bk: nat, group: nat)
    requires Multiple(bk, group) && Multiple(bk, 2)
    requires Multiple(k0 - kLo, bk) && Multiple(k0, group) && Multiple(k0, 2)
    ensures Multiple(k0 + bk - kLo, bk) && Multiple(k0 + bk, group) && Multiple(k0 + bk, 2)
  {
    QuotientIs(bk, bk, 1);
    MultipleSum(k0 - kLo, bk, bk);
    MultipleSum(k0, bk, group);
    MultipleSum(k0, bk, 2);
  }

  // --- The grid ----------------------------------------------------------------------------

  /** A launch: the tile shape, the number of splits and the stretch of K each of them reduces. */
  datatype Launch = Launch(bm: nat, bn: nat, bk: nat, split: nat, kPerSplit: nat)

  /** Tiles hold whole groups and bytes; the splits cover K, and none of them is empty. */
  ghost predicate GoodLaunch(w: Weights, l: Launch) {
    && 0 < l.bm && 0 < l.bn && 0 < l.bk && 0 < l.split && 0 < l.kPerSplit
    && Multiple(l.bk, w.group) && Multiple(l.bk, 2) && Multiple(l.kPerSplit, l.bk)
    && (l.split - 1) * l.kPerSplit < w.k <= l.split * l.kPerSplit
  }

  /** One lane of one program's final store. */
  datatype Lane = Lane(pidM: int, pidN: int, pidK: int, a: int, b: int)

  /** The lane that holds output (i, j) in split pk. */
  function LaneAt(l: Launch, i: int, j: int, pk: int): Lane
    requires 0 < l.bm && 0 < l.bn
  {
    Lane(i / l.bm, j / l.bn, pk, i % l.bm, j % l.bn)
  }

  function AllLanes(gm: int, gn: int, l: Launch): set<Lane> {
    set pm, pn, pk, a, b | 0 <= pm < gm && 0 <= pn < gn && 0 <= pk < l.split && 0 <= a < l.bm && 0 <= b < l.bn
      :: Lane(pm, pn, pk, a, b)
  }

  ghost predicate InGrid(gm: int, gn: int, l: Launch, e: Lane) {
    0 <= e.pidM < gm && 0 <= e.pidN < gn && 0 <= e.pidK < l.split && 0 <= e.a < l.bm && 0 <= e.b < l.bn
  }

  lemma CellInside(i: int, size: int, tile: int)
    requires 0 < tile && 0 <= i < size
    ensures 0 <= i / tile < CDiv(size, tile) && 0 <= i % tile < tile
  {
    CDivCovers(size, tile);
    var q, r, c := i / tile, i % tile, CDiv(size, tile);
    assert i == q * tile + r;
    assert q <= -1 ==> q * tile <= -tile;
    assert q >= c ==> q * tile >= c * tile;
  }

  lemma LanesCoverOutputs(m: nat, n: nat, l: Launch, i: int, j: int, pk: int)
    requires 0 < l.bm && 0 < l.bn && 0 <= i < m && 0 <= j < n && 0 <= pk < l.split
    ensures LaneAt(l, i, j, pk) in AllLanes(CDiv(m, l.bm), CDiv(n, l.bn), l)
  {
    CellInside(i, m, l.bm);
    CellInside(j, n, l.bn);
  }

  /** Every lane belongs to one output only. */
  lemma LaneHasOneOutput(l: Launch, e: Lane, i: int, j: int, pk: int)
    requires 0 < l.bm && 0 < l.bn && 0 <= e.a < l.bm && 0 <= e.b < l.bn
    ensures LaneAt(l, i, j, pk) == e <==> i == e.pidM * l.bm + e.a && j == e.pidN * l.bn + e.b && pk == e.pidK
  {
    QuotientIs(e.pidM * l.bm + e.a, l.bm, e.pidM);
    QuotientIs(e.pidN * l.bn + e.b, l.bn, e.pidN);
    assert i == i / l.bm * l.bm + i % l.bm;
    assert j == j / l.bn * l.bn + j % l.bn;
  }

  /** The partial sums of output (i, j), one per split. */
  function Parts(x: Matrix, w: Weights, l: Launch, i: nat, j: nat): int -> real
    requires Operands(x, w)
  {
    pk => Partial(x, w, i, j, pk * l.kPerSplit, l.kPerSplit)
  }

  /** The same, counting only the splits whose lane has been delivered. */
  function Delivered(x: Matrix, w: Weights, l: Launch, pending: set<Lane>, i: nat, j: nat): int -> real
    requires Operands(x, w) && 0 < l.bm && 0 < l.bn
  {
    pk => if LaneAt(l, i, j, pk) in pending then 0.0 else Parts(x, w, l, i, j)(pk)
  }

  lemma DeliverOne(x: Matrix, w: Weights, l: Launch, pending: set<Lane>, e: Lane, i: nat, j: nat)
    requires Operands(x, w) && 0 < l.bm && 0 < l.bn && 0 <= e.a < l.bm && 0 <= e.b < l.bn
    requires e in pending && 0 <= e.pidK < l.split
    ensures Sum(l.split, Delivered(x, w, l, pending - {e}, i, j)) == Sum(l.split, Delivered(x, w, l, pending, i, j))
         + (if i == e.pidM * l.bm + e.a && j == e.pidN * l.bn + e.b then Parts(x, w, l, i, j)(e.pidK) else 0.0)
  {
    hide Sum, LaneAt, Parts;
    var f, g := Delivered(x, w, l, pending, i, j), Delivered(x, w, l, pending - {e}, i, j);
    forall pk | 0 <= pk < l.split && LaneAt(l, i, j, pk) != e ensures f(pk) == g(pk) {
    }
    forall pk | 0 <= pk < l.split
      ensures LaneAt(l, i, j, pk) == e <==> i == e.pidM * l.bm + e.a && j == e.pidN * l.bn + e.b && pk == e.pidK
    {
      LaneHasOneOutput(l, e, i, j, pk);
    }
    if i == e.pidM * l.bm + e.a && j == e.pidN * l.bn + e.b {
      assert LaneAt(l, i, j, e.pidK) == e;
      SumChangeOne(l.split, f, g, e.pidK);
    } else {
      SumCong(l.split, f, g);
    }
  }

  /** The grid's lanes, delivered one at a time in whatever order they arrive: a plain masked store when
      there is one split, a masked atomic add otherwise. Programs read only x and the weights, so when each
      of them computes does not matter. */
  method RunGrid(x: Matrix, w: Weights, l: Launch, y: array2<real>)
    requires Operands(x, w) && GoodLaunch(w, l)
    requires y.Length0 == |x| && y.Length1 == w.n
    requires l.split > 1 ==> forall i, j :: 0 <= i < |x| && 0 <= j < w.n ==> y[i, j] == 0.0
    modifies y
    ensures forall i, j :: 0 <= i < |x| && 0 <= j < w.n ==> y[i, j] == Sum(l.split, Parts(x, w, l, i, j))
  {
    hide Sum, Parts, LaneAt, Multiple, Partial;
    var gm, gn := CDiv(|x|, l.bm), CDiv(w.n, l.bn);
    var pending := AllLanes(gm, gn, l);
    NothingDelivered(x, w, l, pending);
    while pending != {}
      invariant forall e :: e in pending ==> InGrid(gm, gn, l, e)
      invariant l.split > 1 ==> forall i, j :: 0 <= i < |x| && 0 <= j < w.n ==>
          y[i, j] == Sum(l.split, Delivered(x, w, l, pending, i, j))
      invariant l.split == 1 ==> forall i, j :: 0 <= i < |x| && 0 <= j < w.n ==>
          LaneAt(l, i, j, 0) in pending || y[i, j] == Parts(x, w, l, i, j)(0)
      decreases pending
    {
      var e :| e in pending;
      DeliverLane(x, w, l, y, pending, e);
      pending := pending - {e};
    }
    AllDelivered(x, w, l);
  }

  lemma NothingDelivered(x: Matrix, w: Weights, l: Launch, pending: set<Lane>)
    requires Operands(x, w) && 0 < l.bm && 0 < l.bn && pending == AllLanes(CDiv(|x|, l.bm), CDiv(w.n, l.bn), l)
    ensures forall i, j :: 0 <= i < |x| && 0 <= j < w.n ==> Sum(l.split, Delivered(x, w, l, pending, i, j)) == 0.0
    ensures l.split == 1 ==> forall i, j :: 0 <= i < |x| && 0 <= j < w.n ==> LaneAt(l, i, j, 0) in pending
  {
    forall i, j | 0 <= i < |x| && 0 <= j < w.n
      ensures Sum(l.split, Delivered(x, w, l, pending, i, j)) == 0.0
      ensures l.split == 1 ==> LaneAt(l, i, j, 0) in pending
    {
      hide Sum, LaneAt, AllLanes;
      forall pk | 0 <= pk < l.split ensures LaneAt(l, i, j, pk) in pending {
        LanesCoverOutputs(|x|, w.n, l, i, j, pk);
      }
      SumZero(l.split, Delivered(x, w, l, pending, i, j));
    }
  }

  lemma AllDelivered(x: Matrix, w: Weights, l: Launch)
    requires Operands(x, w) && 0 < l.bm && 0 < l.bn
    ensures forall i, j :: 0 <= i < |x| && 0 <= j < w.n ==>
              Sum(l.split, Delivered(x, w, l, {}, i, j)) == Sum(l.split, Parts(x, w, l, i, j))
    ensures l.split == 1 ==> forall i, j :: 0 <= i < |x| && 0 <= j < w.n ==>
              Parts(x, w, l, i, j)(0) == Sum(l.split, Parts(x, w, l, i, j))
  {
    forall i, j | 0 <= i < |x| && 0 <= j < w.n
      ensures Sum(l.split, Delivered(x, w, l, {}, i, j)) == Sum(l.split, Parts(x, w, l, i, j))
      ensures l.split == 1 ==> Parts(x, w, l, i, j)(0) == Sum(l.split, Parts(x, w, l, i, j))
    {
      SumCong(l.split, Delivered(x, w, l, {}, i, j), Parts(x, w, l, i, j));
      if l.split == 1 {
        SumOnly(1, Parts(x, w, l, i, j), 0);
      }
    }
  }

  /** One lane's store or atomic add. */
  method DeliverLane(x: Matrix, w: Weights, l: Launch, y: array2<real>, ghost pending: set<Lane>, e: Lane)
    requires Operands(x, w) && GoodLaunch(w, l) && y.Length0 == |x| && y.Length1 == w.n
    requires e in pending && InGrid(CDiv(|x|, l.bm), CDiv(w.n, l.bn), l, e)
    modifies y
    ensures l.split > 1 ==> forall i, j :: 0 <= i < |x| && 0 <= j < w.n ==>
              y[i, j] - old(y[i, j])
                == Sum(l.split, Delivered(x, w, l, pending - {e}, i, j))
                   - Sum(l.split, Delivered(x, w, l, pending, i, j))
    ensures l.split == 1 ==> forall i, j :: 0 <= i < |x| && 0 <= j < w.n ==>
              y[i, j] == if LaneAt(l, i, j, 0) == e then Parts(x, w, l, i, j)(0) else old(y[i, j])
  {
    hide Sum, LaneAt, Multiple, Partial;
    var acc := Program(x, w, e.pidM, e.pidN, e.pidK, l.bm, l.bn, l.bk, l.kPerSplit);
    var i0, j0 := e.pidM * l.bm + e.a, e.pidN * l.bn + e.b;
    var v := acc[e.a][e.b];
    if i0 < |x| && j0 < w.n {
      assert Parts(x, w, l, i0, j0)(e.pidK) == Partial(x, w, i0, j0, e.pidK * l.kPerSplit, l.kPerSplit);
      assert v == Parts(x, w, l, i0, j0)(e.pidK);
      y[i0, j0] := if l.split == 1 then v else y[i0, j0] + v;
    }
    hide Parts, GoodLaunch;
    forall i, j | 0 <= i < |x| && 0 <= j < w.n
      ensures l.split > 1 ==> (y[i, j] - old(y[i, j])
        == Sum(l.split, Delivered(x, w, l, pending - {e}, i, j)) - Sum(l.split, Delivered(x, w, l, pending, i, j)))
      ensures LaneAt(l, i, j, 0) == e <==> i == i0 && j == j0 && e.pidK == 0
    {
      DeliverOne(x, w, l, pending, e, i, j);
      LaneHasOneOutput(l, e, i, j, 0);
    }
  }

  // --- The splits add up to the dense dot product -------------------------------------------

  lemma {:induction false} SumTiles(tiles: nat, width: nat, f: int -> real, parts: int -> real)
    requires forall p :: 0 <= p < tiles ==> parts(p) == Sum(width, t => f(p * width + t))
    ensures 0 <= tiles * width && Sum(tiles * width, f) == Sum(tiles, parts)
  {
    if tiles > 0 {
      var before := (tiles - 1) * width;
      SumTiles(tiles - 1, width, f, parts);
      assert before + width == tiles * width;
      SumSplit(before + width, before, f, t => f((tiles - 1) * width + t));
      assert parts(tiles - 1) == Sum(width, t => f((tiles - 1) * width + t));
    }
  }

  function Products(u: seq<real>, v: seq<real>): int -> real {
    t => if 0 <= t < |u| && t < |v| then Times(u[t], v[t]) else 0.0
  }

  /** Output (i, j) of the reference: the row of x times the row of the dense weight. */
  function LinearAt(x: Matrix, w: Weights, i: nat, j: nat): real
    requires Operands(x, w) && i < |x| && j < w.n
  {
    Sum(w.k, Products(x[i], DequantPacked(w)[j]))
  }

  lemma PartsMakeLinear(x: Matrix, w: Weights, l: Launch, i: nat, j: nat)
    requires Operands(x, w) && GoodLaunch(w, l) && i < |x| && j < w.n
    ensures Sum(l.split, Parts(x, w, l, i, j)) == LinearAt(x, w, i, j)
  {
    var term, parts := Term(x, w, i, j), Parts(x, w, l, i, j);
    forall p | 0 <= p < l.split ensures parts(p) == Sum(l.kPerSplit, t => term(p * l.kPerSplit + t)) {
      PartAt(x, w, l, i, j, p);
    }
    hide Parts, Sum, Term, Multiple;
    SumTiles(l.split, l.kPerSplit, term, parts);
    TermsAreProducts(x, w, i, j, l.split * l.kPerSplit);
  }

  lemma TermsAreProducts(x: Matrix, w: Weights, i: nat, j: nat, n: nat)
    requires Operands(x, w) && w.k <= n && i < |x| && j < w.n
    ensures Sum(n, Term(x, w, i, j)) == LinearAt(x, w, i, j)
  {
    hide Sum, Dense, Times, DequantPacked;
    var term := Term(x, w, i, j);
    DequantPackedAt(w, j, 0);
    var products := Products(x[i], DequantPacked(w)[j]);
    forall kk | 0 <= kk < n
      ensures term(kk) == if kk < w.k then products(kk) else 0.0
    {
      if kk < w.k {
        DequantPackedAt(w, j, kk);
      }
      TermAt(x, w, i, j, kk);
    }
    SumWindow(n, 0, w.k, term, products);
  }

  lemma PartAt(x: Matrix, w: Weights, l: Launch, i: nat, j: nat, p: int)
    requires Operands(x, w)
    ensures Parts(x, w, l, i, j)(p) == Sum(l.kPerSplit, t => Term(x, w, i, j)(p * l.kPerSplit + t))
  {
    hide Sum, Term;
    assert Parts(x, w, l, i, j)(p) == Partial(x, w, i, j, p * l.kPerSplit, l.kPerSplit);
  }

  // --- Choosing the split --------------------------------------------------------------------

  predicate PowerOfTwo(d: nat) { d == 1 || (d > 0 && d % 2 == 0 && PowerOfTwo(d / 2)) }

  /** Double the split while there are fewer than about four programs per multiprocessor and a step for each. */
  method DoubleSplit(kSteps: nat, gridMN: nat, sms: nat) returns (split: nat)
    requires 1 <= kSteps
    ensures 1 <= split <= kSteps && PowerOfTwo(split)
    ensures split == 1 || gridMN * (split / 2) < 4 * sms
    ensures gridMN * split >= 4 * sms || split * 2 > kSteps
  {
    split := 1;
    while gridMN * split < 4 * sms && split * 2 <= kSteps
      invariant 1 <= split <= kSteps && PowerOfTwo(split)
      invariant split == 1 || gridMN * (split / 2) < 4 * sms
      decreases kSteps - split
    {
      split := split * 2;
    }
  }

  /** Double, then make the splits equal. */
  method ChooseSplit(k: nat, gridMN: nat, sms: nat, bk: nat) returns (split: nat, kPerSplit: nat, ghost doubled: nat)
    requires 0 < k && 0 < bk
    ensures 1 <= split <= doubled <= CDiv(k, bk)
    ensures doubled == 1 || gridMN * (doubled / 2) < 4 * sms
    ensures gridMN * doubled >= 4 * sms || doubled * 2 > CDiv(k, bk)
    ensures PowerOfTwo(doubled) && kPerSplit == CDiv(CDiv(k, bk), doubled) * bk && split == CDiv(k, kPerSplit)
    ensures 0 < kPerSplit && Multiple(kPerSplit, bk)
    ensures (split - 1) * kPerSplit < k <= split * kPerSplit
  {
    hide CDiv, PowerOfTwo, Multiple;
    CDivCovers(k, bk);
    var kSteps := CDiv(k, bk);
    split := DoubleSplit(kSteps, gridMN, sms);
    doubled := split;
    var each := CDiv(kSteps, split);
    CDivCovers(kSteps, split);
    EqualSplits(k, bk, kSteps, split, each);
    kPerSplit := each * bk;
    split := CDiv(k, kPerSplit);
  }

  lemma EqualSplits(k: nat, bk: nat, kSteps: nat, split: nat, each: nat)
    requires 0 < k && 0 < bk && 0 < split && 0 < each && k <= kSteps * bk && kSteps <= each * split
    ensures 0 < each * bk && Multiple(each * bk, bk)
    ensures var s := CDiv(k, each * bk);
            1 <= s <= split && (s - 1) * (each * bk) < k <= s * (each * bk)
  {
    var width := each * bk;
    assert width >= bk by {
      assert (each - 1) * bk >= 0;
      assert width == (each - 1) * bk + bk;
    }
    QuotientIs(width, bk, each);
    assert k <= split * width by {
      assert (each * split - kSteps) * bk >= 0;
      assert each * split * bk == split * width;
    }
    CDivCovers(k, width);
    CDivLeast(k, width, split);
    var s := CDiv(k, width);
    assert (s - 1) * width == s * width - width;
  }

  // --- The dense path ---------------------------------------------------------------------------

  /** The dequantizing grid: every program stores one masked tile, in any order. */
  method W4Dequant(w: Weights) returns (dense: array2<real>)
    requires WellShaped(w) && LegalGroup(w.group)
    ensures fresh(dense) && dense.Length0 == w.n && dense.Length1 == w.k
    ensures forall i, j :: 0 <= i < w.n && 0 <= j < w.k ==> dense[i, j] == Dense(w, i, j)
  {
    var bn, bk := 32, MaxInt(128, w.group);
    TileHoldsGroups(w.group, 128);
    var l := Launch(bn, bk, bk, 1, bk);
    var gn, gk := CDiv(w.n, bn), CDiv(w.k, bk);
    dense := new real[w.n, w.k];
    var pending := AllLanes(gn, gk, l);
    hide LaneAt, Dense, TileWeight, Multiple, AllLanes;
    forall i, j | 0 <= i < w.n && 0 <= j < w.k ensures LaneAt(l, i, j, 0) in pending {
      LanesCoverOutputs(w.n, w.k, l, i, j, 0);
    }
    LanesInGrid(gn, gk, l);
    while pending != {}
      invariant forall e :: e in pending ==> InGrid(gn, gk, l, e)
      invariant forall i, j :: 0 <= i < w.n && 0 <= j < w.k ==>
                  LaneAt(l, i, j, 0) in pending || dense[i, j] == Dense(w, i, j)
      decreases pending
    {
      var e :| e in pending;
      StoreDequantLane(w, l, dense, e);
      pending := pending - {e};
    }
  }

  lemma LanesInGrid(gm: int, gn: int, l: Launch)
    ensures forall e :: e in AllLanes(gm, gn, l) ==> InGrid(gm, gn, l, e)
  {
  }

  method StoreDequantLane(w: Weights, l: Launch, dense: array2<real>, e: Lane)
    requires WellShaped(w) && dense.Length0 == w.n && dense.Length1 == w.k
    requires 0 < l.bm && 0 < l.bn && l.bk == l.bn && l.split == 1 && Multiple(l.bk, w.group) && Multiple(l.bk, 2)
    requires InGrid(CDiv(w.n, l.bm), CDiv(w.k, l.bn), l, e)
    modifies dense
    ensures forall i, j :: 0 <= i < w.n && 0 <= j < w.k ==>
              dense[i, j] == if LaneAt(l, i, j, 0) == e then Dense(w, i, j) else old(dense[i, j])
  {
    hide LaneAt, Dense, TileWeight, Multiple;
    var n, k0 := e.pidM * l.bm + e.a, e.pidN * l.bn;
    TileStart(e.pidN, l.bk, w.group);
    if n < w.n && k0 + e.b < w.k {
      TileWeightIsDense(w, n, k0, e.b);
      dense[n, k0 + e.b] := TileWeight(w, n, k0, e.b);
    }
    forall i, j | 0 <= i < w.n && 0 <= j < w.k ensures LaneAt(l, i, j, 0) == e <==> i == n && j == k0 + e.b {
      LaneHasOneOutput(l, e, i, j, 0);
    }
  }

  lemma TileStart(pid: nat, bk: nat, group: nat)
    requires Multiple(bk, group) && Multiple(bk, 2)
    ensures 0 <= pid * bk && Multiple(pid * bk, group) && Multiple(pid * bk, 2)
  {
    MultipleTimes(pid, bk, group);
    MultipleTimes(pid, bk, 2);
  }

  /** F.linear on a dense weight. */
  method DenseLinear(x: Matrix, w: Weights, dense: array2<real>) returns (y: array2<real>)
    requires Operands(x, w) && dense.Length0 == w.n && dense.Length1 == w.k
    requires forall i, j :: 0 <= i < w.n && 0 <= j < w.k ==> dense[i, j] == Dense(w, i, j)
    ensures fresh(y) && y.Length0 == |x| && y.Length1 == w.n
    ensures forall i, j :: 0 <= i < |x| && 0 <= j < w.n ==> y[i, j] == LinearAt(x, w, i, j)
  {
    hide Dense, Times, LinearAt;
    y := new real[|x|, w.n];
    for i := 0 to |x|
      invariant forall a, b :: 0 <= a < i && 0 <= b < w.n ==> y[a, b] == LinearAt(x, w, a, b)
    {
      for j := 0 to w.n
        invariant forall a, b :: 0 <= a < i && 0 <= b < w.n ==> y[a, b] == LinearAt(x, w, a, b)
        invariant forall b :: 0 <= b < j ==> y[i, b] == LinearAt(x, w, i, b)
      {
        y[i, j] := DenseDot(x, w, dense, i, j);
      }
    }
  }

  method DenseDot(x: Matrix, w: Weights, dense: array2<real>, i: nat, j: nat) returns (acc: real)
    requires Operands(x, w) && dense.Length0 == w.n && dense.Length1 == w.k && i < |x| && j < w.n
    requires forall i, j :: 0 <= i < w.n && 0 <= j < w.k ==> dense[i, j] == Dense(w, i, j)
    ensures acc == LinearAt(x, w, i, j)
  {
    DequantPackedAt(w, j, 0);
    hide Dense, Times, DequantPacked, Sum;
    acc := 0.0;
    ghost var f := Products(x[i], DequantPacked(w)[j]);
    SumZero(0, f);
    for kk := 0 to w.k
      invariant acc == Sum(kk, f)
    {
      DequantPackedAt(w, j, kk);
      SumStep(kk, f);
      acc := acc + Times(x[i][kk], dense[j, kk]);
    }
  }

  // --- The layer -----------------------------------------------------------------------------------

  /** y plus the bias, when there is one. */
  method AddBias(y: array2<real>, bias: Option<seq<real>>)
    requires bias.Some? ==> |bias.value| == y.Length1
    modifies y
    ensures forall i, j :: 0 <= i < y.Length0 && 0 <= j < y.Length1 ==>
              y[i, j] == old(y[i, j]) + (if bias.Some? then bias.value[j] else 0.0)
  {
    if bias.Some? {
      forall i, j | 0 <= i < y.Length0 && 0 <= j < y.Length1 {
        y[i, j] := y[i, j] + bias.value[j];
      }
    }
  }

  /** The launch of the decode and short-prefill paths. */
  method PlanLaunch(w: Weights, m: nat, sms: nat) returns (l: Launch, ghost doubled: nat)
    requires WellShaped(w) && LegalGroup(w.group)
    ensures GoodLaunch(w, l)
    ensures var base := if 32 < m then 64 else 128;
            l.bk >= w.group && l.bk >= base && (l.bk == w.group || l.bk == base)
    ensures 32 < m ==> l.bm == 64 && l.bn == 64 && l.split == 1
    ensures 16 < m <= 32 ==> l.bm == 32 && l.bn == 64 && l.split == 1
    ensures m <= 16 ==> l.bm == 16 && l.bn == (if w.n <= 1024 then 16 else 32)
    ensures m <= 16 ==> PowerOfTwo(doubled) && l.kPerSplit == CDiv(CDiv(w.k, l.bk), doubled) * l.bk
    ensures m <= 16 ==> doubled == 1 || CDiv(w.n, l.bn) * (doubled / 2) < 4 * sms
    ensures m <= 16 ==> CDiv(w.n, l.bn) * doubled >= 4 * sms || doubled * 2 > CDiv(w.k, l.bk)
  {
    doubled := 1;
    if m > 16 {
      var bm := if m <= 32 then 32 else 64;
      var base := if m <= 32 then 128 else 64;
      var bk := MaxInt(base, w.group);
      TileHoldsGroups(w.group, base);
      var steps := CDiv(w.k, bk);
      CDivCovers(w.k, bk);
      MultipleOf(steps, bk);
      l := Launch(bm, 64, bk, 1, steps * bk);
    } else {
      var bn := if w.n <= 1024 then 16 else 32;
      var bk := MaxInt(128, w.group);
      TileHoldsGroups(w.group, 128);
      var gridMN := CDiv(w.n, bn);
      CDivCovers(w.n, bn);
      var split, kPerSplit;
      split, kPerSplit, doubled := ChooseSplit(w.k, gridMN, sms, bk);
      l := Launch(16, bn, bk, split, kPerSplit);
    }
  }

  lemma MultipleOf(q: int, b: int)
    requires 0 < b && 0 < q
    ensures Multiple(q * b, b) && 0 < q * b
  {
    QuotientIs(q * b, b, q);
    assert q * b == (q - 1) * b + b;
    assert (q - 1) * b >= 0;
  }

  /** The layer, on all three dispatch paths and in every order of the grid's stores and adds. */
  method W4A16Linear(x: Matrix, w: Weights, bias: Option<seq<real>>, sms: nat) returns (r: Result<array2<real>>)
    requires Operands(x, w) && (bias.Some? ==> |bias.value| == w.n)
    ensures r.ValueError? <==> 128 % w.group != 0 && w.group % 128 != 0
    ensures r.Ok? ==> r.value.Length0 == |x| && r.value.Length1 == w.n
    ensures r.Ok? ==> forall i, j :: 0 <= i < |x| && 0 <= j < w.n ==>
              r.value[i, j] == LinearAt(x, w, i, j) + (if bias.Some? then bias.value[j] else 0.0)
  {
    if 128 % w.group != 0 && w.group % 128 != 0 {
      return ValueError;
    }
    hide LinearAt, Parts, Sum, GoodLaunch, Dense;
    var m := |x|;
    var y;
    if m > 256 {
      var dense := W4Dequant(w);
      y := DenseLinear(x, w, dense);
    } else {
      var l;
      ghost var doubled;
      l, doubled := PlanLaunch(w, m, sms);
      if l.split == 1 {
        y := new real[m, w.n];
      } else {
        y := new real[m, w.n]((i, j) => 0.0);
      }
      RunGrid(x, w, l, y);
      forall i, j | 0 <= i < |x| && 0 <= j < w.n ensures y[i, j] == LinearAt(x, w, i, j) {
        PartsMakeLinear(x, w, l, i, j);
      }
    }
    AddBias(y, bias);
    r := Ok(y);
  }

  // --- What the layer computes, from the codes it stores ----------------------------------------------

  /** Signed codes without zero points: every output is the sum of activations times code times group scale. */
  lemma LinearOfCodes(x: Matrix, w: Weights, c: Codes, i: nat, j: nat, f: int -> real)
    requires Operands(x, w) && w.zeros.None? && Shape(c, w.n, 2 * w.kb2) && i < |x| && j < w.n
    requires forall r, t :: 0 <= r < w.n && 0 <= t < 2 * w.kb2 ==> -8 <= c[r][t] < 8
    requires forall r, b :: 0 <= r < w.n && 0 <= b < w.kb2 ==>
               w.packed[r][b] == (c[r][2 * b] + 8) + 16 * (c[r][2 * b + 1] + 8)
    requires forall kk: nat :: kk < w.k ==>
               kk / w.group < w.ng && f(kk) == x[i][kk] * (c[j][kk] as real * w.scales[j][kk / w.group])
    ensures LinearAt(x, w, i, j) == Sum(w.k, f)
  {
    hide Sum, DequantPacked;
    DequantPackedAt(w, j, 0);
    var g := Products(x[i], DequantPacked(w)[j]);
    forall kk | 0 <= kk < w.k ensures g(kk) == f(kk) {
      DequantOfCodes(w, c, j, kk);
    }
    SumCong(w.k, g, f);
  }

  /** Values with zero points: likewise with value minus zero point in the place of the code. */
  lemma LinearOfValues(x: Matrix, w: Weights, q: Codes, i: nat, j: nat, f: int -> real)
    requires Operands(x, w) && HoldsValues(w, q) && w.zeros.Some? && i < |x| && j < w.n
    requires forall kk: nat :: kk < w.k ==>
               kk / w.group < w.ng
               && f(kk) == x[i][kk] * ((q[j][kk] - w.zeros.value[j][kk / w.group]) as real * w.scales[j][kk / w.group])
    ensures LinearAt(x, w, i, j) == Sum(w.k, f)
  {
    hide Sum, DequantPacked;
    DequantPackedAt(w, j, 0);
    var g := Products(x[i], DequantPacked(w)[j]);
    forall kk | 0 <= kk < w.k ensures g(kk) == f(kk) {
      DequantOfValues(w, q, j, kk);
    }
    SumCong(w.k, g, f);
  }
}
