/** Packed 4-bit weights and the dense weight they stand for. */
module PackedWeights {
  import opened Common
  import opened BlockInt4

  /** MatMulNBits weights: two 4-bit values per byte, one scale (and zero point) per group along K. */
  datatype Weights = Weights(packed: seq<seq<Byte>>, scales: Matrix, zeros: Option<seq<seq<Byte>>>,
                             k: nat, n: nat, group: nat, kb2: nat, ng: nat)

  /** K is padded to whole groups, and every tensor has its declared shape. */
  ghost predicate WellShaped(w: Weights) {
    && 0 < w.k && 0 < w.n && 0 < w.group
    && 2 * w.kb2 == w.ng * w.group && w.k <= 2 * w.kb2
    && Shape(w.packed, w.n, w.kb2) && Shape(w.scales, w.n, w.ng)
    && (w.zeros.Some? ==> Shape(w.zeros.value, w.n, w.ng))
  }

  // --- The dense meaning -----------------------------------------------------------------

  /** The nibbles of one packed row, low nibble first. */
  function Nibbles(row: seq<Byte>): seq<int> {
    seq(2 * |row|, t requires 0 <= t < 2 * |row| => if t % 2 == 0 then row[t / 2] % 16 else row[t / 2] / 16)
  }

  function ZeroPoint(w: Weights, i: nat, g: nat): int
    requires WellShaped(w) && i < w.n && g < w.ng
  {
    if w.zeros.None? then 8 else w.zeros.value[i][g]
  }

  function Dequant(q: int, zero: int, scale: real): real { (q - zero) as real * scale }

  /** Group g of a dequantized row. */
  function DequantGroup(w: Weights, i: nat, g: nat): seq<real>
    requires WellShaped(w) && i < w.n && g < w.ng
  {
    GroupInside(w, g);
    seq(w.group, r requires 0 <= r < w.group =>
      Dequant(Nibbles(w.packed[i])[g * w.group + r], ZeroPoint(w, i, g), w.scales[i][g]))
  }

  lemma GroupInside(w: Weights, g: nat)
    requires WellShaped(w) && g < w.ng
    ensures 0 <= g * w.group && g * w.group + w.group <= 2 * w.kb2
  {
    assert (g + 1) * w.group <= w.ng * w.group;
  }

  /** The first groups of a dequantized row, flattened. */
  function DequantGroups(w: Weights, i: nat, groups: nat): seq<real>
    requires WellShaped(w) && i < w.n && groups <= w.ng
  {
    if groups == 0 then [] else DequantGroups(w, i, groups - 1) + DequantGroup(w, i, groups - 1)
  }

  /** The dense [N, K] weight: unpack, regroup, subtract the zero point, scale, flatten, cut to K. */
  function DequantPacked(w: Weights): Matrix
    requires WellShaped(w)
  {
    seq(w.n, i requires 0 <= i < w.n => FirstK(w, i))
  }

  function FirstK(w: Weights, i: nat): (row: seq<real>)
    requires WellShaped(w) && i < w.n
    ensures |row| == w.k
  {
    DequantLength(w, i, w.ng);
    DequantGroups(w, i, w.ng)[..w.k]
  }

  lemma {:induction false} DequantLength(w: Weights, i: nat, groups: nat)
    requires WellShaped(w) && i < w.n && groups <= w.ng
    ensures |DequantGroups(w, i, groups)| == groups * w.group
  {
    if groups > 0 {
      DequantLength(w, i, groups - 1);
      assert (groups - 1) * w.group + w.group == groups * w.group;
    }
  }

  /** One dense weight, straight from its nibble and its group's scale. */
  function Dense(w: Weights, i: nat, kk: nat): real
    requires WellShaped(w) && i < w.n && kk < 2 * w.kb2
  {
    GroupOf(w, kk);
    Dequant(Nibbles(w.packed[i])[kk], ZeroPoint(w, i, kk / w.group), w.scales[i][kk / w.group])
  }

  lemma GroupOf(w: Weights, kk: nat)
    requires WellShaped(w) && kk < 2 * w.kb2
    ensures 0 <= kk / w.group < w.ng
    ensures kk == kk / w.group * w.group + kk % w.group
  {
    var g := kk / w.group;
    assert g >= w.ng ==> g * w.group >= w.ng * w.group;
  }

  lemma GroupAt(w: Weights, i: nat, g: nat, r: nat)
    requires WellShaped(w) && i < w.n && g < w.ng && r < w.group
    ensures 0 <= g * w.group + r < 2 * w.kb2
    ensures DequantGroup(w, i, g)[r] == Dense(w, i, g * w.group + r)
  {
    hide Nibbles, Dequant;
    GroupInside(w, g);
    QuotientIs(g * w.group + r, w.group, g);
  }

  lemma {:induction false} DequantAt(w: Weights, i: nat, groups: nat, kk: nat)
    requires WellShaped(w) && i < w.n && groups <= w.ng && kk < groups * w.group
    ensures kk < 2 * w.kb2 && kk < |DequantGroups(w, i, groups)|
    ensures DequantGroups(w, i, groups)[kk] == Dense(w, i, kk)
  {
    hide Dense, DequantGroup;
    var before := (groups - 1) * w.group;
    DequantLength(w, i, groups);
    DequantLength(w, i, groups - 1);
    assert before + w.group == groups * w.group;
    GroupInside(w, groups - 1);
    if kk < before {
      DequantAt(w, i, groups - 1, kk);
    } else {
      GroupAt(w, i, groups - 1, kk - before);
      GroupLength(w, i, groups - 1);
    }
  }

  lemma GroupLength(w: Weights, i: nat, g: nat)
    requires WellShaped(w) && i < w.n && g < w.ng
    ensures |DequantGroup(w, i, g)| == w.group
  {
  }

  lemma QuotientIs(a: int, b: int, q: int)
    requires 0 < b && q * b <= a < q * b + b
    ensures a / b == q && a % b == a - q * b
  {
    var r, d, rem := a - q * b, a / b - q, a % b;
    assert a == q * b + r;
    assert (d + q) * b + rem == a;
    assert d * b == r - rem;
    assert d >= 1 ==> d * b >= b;
    assert d <= -1 ==> d * b <= -b;
  }

  lemma DequantPackedAt(w: Weights, i: nat, kk: nat)
    requires WellShaped(w) && i < w.n && kk < w.k
    ensures |DequantPacked(w)| == w.n && |DequantPacked(w)[i]| == w.k
    ensures DequantPacked(w)[i][kk] == Dense(w, i, kk)
  {
    DequantAt(w, i, w.ng, kk);
    assert DequantPacked(w)[i] == FirstK(w, i);
  }

  // --- What bytes stand for ---------------------------------------------------------------

  /** Every byte of the packed weight holds two values, the one of the even position low. */
  ghost predicate HoldsValues(w: Weights, q: Codes) {
    && WellShaped(w) && Shape(q, w.n, 2 * w.kb2)
    && (forall i, kk :: 0 <= i < w.n && 0 <= kk < 2 * w.kb2 ==> 0 <= q[i][kk] < 16)
    && (forall i, b :: 0 <= i < w.n && 0 <= b < w.kb2 ==> w.packed[i][b] == q[i][2 * b] + 16 * q[i][2 * b + 1])
  }

  lemma NibbleIsValue(w: Weights, q: Codes, i: nat, kk: nat)
    requires HoldsValues(w, q) && i < w.n && kk < 2 * w.kb2
    ensures Nibbles(w.packed[i])[kk] == q[i][kk]
  {
    var b := kk / 2;
    assert 0 <= b < w.kb2;
    var lo, hi := q[i][2 * b], q[i][2 * b + 1];
    assert w.packed[i][b] == lo + 16 * hi;
    QuotientIs(lo + 16 * hi, 16, hi);
    assert kk == if kk % 2 == 0 then 2 * b else 2 * b + 1;
  }

  /** Values q packed two to a byte, zero points z and scales s stand for (q - z) * s, group by group. */
  lemma DequantOfValues(w: Weights, q: Codes, i: nat, kk: nat)
    requires HoldsValues(w, q) && w.zeros.Some? && i < w.n && kk < w.k
    ensures 0 <= kk / w.group < w.ng
    ensures DequantPacked(w)[i][kk] == (q[i][kk] - w.zeros.value[i][kk / w.group]) as real * w.scales[i][kk / w.group]
  {
    hide Nibbles, DequantPacked;
    GroupOf(w, kk);
    NibbleIsValue(w, q, i, kk);
    DequantPackedAt(w, i, kk);
  }

  /** Without zero points, signed codes c packed as c + 8 come back as c * s: packing, then dequantizing,
      loses nothing. */
  lemma DequantOfCodes(w: Weights, c: Codes, i: nat, kk: nat)
    requires WellShaped(w) && w.zeros.None? && Shape(c, w.n, 2 * w.kb2) && i < w.n && kk < w.k
    requires forall r, t :: 0 <= r < w.n && 0 <= t < 2 * w.kb2 ==> -8 <= c[r][t] < 8
    requires forall r, b :: 0 <= r < w.n && 0 <= b < w.kb2 ==>
               w.packed[r][b] == (c[r][2 * b] + 8) + 16 * (c[r][2 * b + 1] + 8)
    ensures 0 <= kk / w.group < w.ng
    ensures DequantPacked(w)[i][kk] == c[i][kk] as real * w.scales[i][kk / w.group]
  {
    hide Nibbles, DequantPacked;
    var q := seq(w.n, r requires 0 <= r < w.n => seq(2 * w.kb2, t requires 0 <= t < 2 * w.kb2 => c[r][t] + 8));
    GroupOf(w, kk);
    NibbleIsValue(w, q, i, kk);
    DequantPackedAt(w, i, kk);
  }
}
