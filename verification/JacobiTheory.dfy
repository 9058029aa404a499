/** What one plane rotation does to a symmetric matrix and to the basis collected beside it. */
module JacobiTheory {
  import opened Sums

  type Vec = int -> real
  type Mat = (int, int) -> real

  const Identity: Mat := (i, j) => if i == j then 1.0 else 0.0

  function Col(V: Mat, j: int): Vec { i => V(i, j) }

  function Row(V: Mat, i: int): Vec { j => V(i, j) }

  function Mul(u: Vec, w: Vec): Vec { k => u(k) * w(k) }

  function Dot(n: nat, u: Vec, w: Vec): real { Sum(n, Mul(u, w)) }

  /** B applied to w. */
  function Apply(n: nat, B: Mat, w: Vec): Vec { k => Dot(n, Row(B, k), w) }

  /** The bilinear form u' B w. */
  function Form(n: nat, B: Mat, u: Vec, w: Vec): real { Dot(n, u, Apply(n, B, w)) }

  function Trace(n: nat, A: Mat): real { Sum(n, i => A(i, i)) }

  lemma TraceGrows(n: nat, A: Mat)
    ensures Trace(0, A) == 0.0 && Trace(n + 1, A) == Trace(n, A) + A(n, n)
  {
    var d := i => A(i, i);
    assert Trace(n + 1, A) == Sum(n + 1, d) by { SumCong(n + 1, d, i => A(i, i)); }
    assert Trace(n, A) == Sum(n, d) by { SumCong(n, d, i => A(i, i)); }
  }

  ghost predicate Symmetric(n: nat, A: Mat) {
    forall i, j :: 0 <= i < n && 0 <= j < n ==> A(i, j) == A(j, i)
  }

  ghost predicate OrthonormalCols(n: nat, V: Mat) {
    forall i, j :: 0 <= i < n && 0 <= j < n ==> Dot(n, Col(V, i), Col(V, j)) == Identity(i, j)
  }

  ghost predicate OrthonormalRows(n: nat, V: Mat) {
    forall i, j :: 0 <= i < n && 0 <= j < n ==> Dot(n, Row(V, i), Row(V, j)) == Identity(i, j)
  }

  /** A is V' A0 V. */
  ghost predicate Congruent(n: nat, A0: Mat, A: Mat, V: Mat) {
    forall i, j :: 0 <= i < n && 0 <= j < n ==> A(i, j) == Form(n, A0, Col(V, i), Col(V, j))
  }

  function Sq(x: real): real { x * x }

  function SquareAbove(A: Mat): Mat { (p, q) => if p < q then Sq(A(p, q)) else 0.0 }

  /** The sum of squares strictly above the diagonal. */
  function Off(n: nat, A: Mat): real { Sum(n, RowSum(n, SquareAbove(A))) }

  // --- Plane rotations ------------------------------------------------------

  /** Component j of a vector after the plane rotation, from its components p, q and j before it. */
  function Mix(j: int, p: int, q: int, c: real, s: real, xp: real, xq: real, xj: real): real {
    if j == p then c * xp - s * xq else if j == q then s * xp + c * xq else xj
  }

  function RotateCols(M: Mat, p: int, q: int, c: real, s: real): Mat {
    (i, j) => Mix(j, p, q, c, s, M(i, p), M(i, q), M(i, j))
  }

  function RotateRows(M: Mat, p: int, q: int, c: real, s: real): Mat {
    (i, j) => Mix(i, p, q, c, s, M(p, j), M(q, j), M(i, j))
  }

  lemma ColsAt(M: Mat, p: int, q: int, c: real, s: real, i: int, j: int)
    ensures RotateCols(M, p, q, c, s)(i, j) == Mix(j, p, q, c, s, M(i, p), M(i, q), M(i, j))
  {
  }

  lemma RowsAt(M: Mat, p: int, q: int, c: real, s: real, i: int, j: int)
    ensures RotateRows(M, p, q, c, s)(i, j) == Mix(i, p, q, c, s, M(p, j), M(q, j), M(i, j))
  {
  }

  /** J' A J for the plane rotation J in coordinates p and q. */
  function Rotate(A: Mat, p: int, q: int, c: real, s: real): Mat {
    RotateRows(RotateCols(A, p, q, c, s), p, q, c, s)
  }

  /** t is the small root of t*t + 2*tau*t - 1 with tau = (A(q,q) - A(p,p)) / (2*A(p,q)), and c and s
      are the cosine and sine of that tangent. */
  ghost predicate IsAngle(A: Mat, p: int, q: int, t: real, c: real, s: real) {
    && c * c + s * s == 1.0
    && s == t * c
    && 0.0 < c
    && -1.0 <= t <= 1.0
    && (A(q, q) - A(p, p)) * t == A(p, q) * (1.0 - t * t)
  }

  // --- Bilinearity ----------------------------------------------------------

  lemma DotLinear(n: nat, a: real, u: Vec, b: real, w: Vec, uw: Vec, z: Vec)
    requires forall k :: 0 <= k < n ==> uw(k) == a * u(k) + b * w(k)
    ensures Dot(n, uw, z) == a * Dot(n, u, z) + b * Dot(n, w, z)
    ensures Dot(n, z, uw) == a * Dot(n, z, u) + b * Dot(n, z, w)
  {
    hide Sum;
    forall k | 0 <= k < n
      ensures Mul(uw, z)(k) == a * Mul(u, z)(k) + b * Mul(w, z)(k)
      ensures Mul(z, uw)(k) == a * Mul(z, u)(k) + b * Mul(z, w)(k)
    {
      CombinationTimes(a, u(k), b, w(k), uw(k), z(k));
    }
    hide Mul;
    SumLinear(n, a, Mul(u, z), b, Mul(w, z), Mul(uw, z));
    SumLinear(n, a, Mul(z, u), b, Mul(z, w), Mul(z, uw));
  }

  lemma CombinationTimes(a: real, u: real, b: real, w: real, uw: real, z: real)
    requires uw == a * u + b * w
    ensures uw * z == a * (u * z) + b * (w * z) && z * uw == a * (z * u) + b * (z * w)
  {
  }

  lemma DotCong(n: nat, u: Vec, w: Vec, u': Vec, w': Vec)
    requires forall k :: 0 <= k < n ==> u(k) == u'(k) && w(k) == w'(k)
    ensures Dot(n, u, w) == Dot(n, u', w')
  {
    SumCong(n, Mul(u, w), Mul(u', w'));
  }

  lemma FormLinear(n: nat, B: Mat, a: real, u: Vec, b: real, w: Vec, uw: Vec, z: Vec)
    requires forall k :: 0 <= k < n ==> uw(k) == a * u(k) + b * w(k)
    ensures Form(n, B, uw, z) == a * Form(n, B, u, z) + b * Form(n, B, w, z)
    ensures Form(n, B, z, uw) == a * Form(n, B, z, u) + b * Form(n, B, z, w)
  {
    DotLinear(n, a, u, b, w, uw, Apply(n, B, z));
    forall k | 0 <= k < n
      ensures Apply(n, B, uw)(k) == a * Apply(n, B, u)(k) + b * Apply(n, B, w)(k)
    {
      DotLinear(n, a, u, b, w, uw, Row(B, k));
    }
    DotLinear(n, a, Apply(n, B, u), b, Apply(n, B, w), Apply(n, B, uw), z);
  }

  /** A form on rotated columns is the rotated matrix of the form on the old ones. */
  lemma RotateKeepsCongruent(n: nat, A0: Mat, A: Mat, V: Mat, p: int, q: int, c: real, s: real)
    requires 0 <= p < q < n
    requires Congruent(n, A0, A, V)
    ensures Congruent(n, A0, Rotate(A, p, q, c, s), RotateCols(V, p, q, c, s))
  {
    forall i, j | 0 <= i < n && 0 <= j < n
      ensures Rotate(A, p, q, c, s)(i, j)
           == Form(n, A0, Col(RotateCols(V, p, q, c, s), i), Col(RotateCols(V, p, q, c, s), j))
    {
      RotatedEntryIsForm(n, A0, A, V, p, q, c, s, i, j);
    }
  }

  lemma RotatedEntryIsForm(n: nat, A0: Mat, A: Mat, V: Mat, p: int, q: int, c: real, s: real, i: int, j: int)
    requires 0 <= p < q < n && 0 <= i < n && 0 <= j < n
    requires Congruent(n, A0, A, V)
    ensures Rotate(A, p, q, c, s)(i, j)
         == Form(n, A0, Col(RotateCols(V, p, q, c, s), i), Col(RotateCols(V, p, q, c, s), j))
  {
    var wj := Col(RotateCols(V, p, q, c, s), j);
    var B := RotateCols(A, p, q, c, s);
    FormColumn(n, A0, V, Col(V, p), p, q, c, s, j);
    assert Form(n, A0, Col(V, p), wj) == B(p, j);
    FormColumn(n, A0, V, Col(V, q), p, q, c, s, j);
    assert Form(n, A0, Col(V, q), wj) == B(q, j);
    FormColumn(n, A0, V, Col(V, i), p, q, c, s, j);
    assert Form(n, A0, Col(V, i), wj) == B(i, j);
    FormColumn(n, A0, V, wj, p, q, c, s, i);
  }

  /** The three cases of a rotated column inside a form, on either side. */
  lemma FormColumn(n: nat, B: Mat, V: Mat, z: Vec, p: int, q: int, c: real, s: real, j: int)
    requires 0 <= p < q < n && 0 <= j < n
    ensures var w := Col(RotateCols(V, p, q, c, s), j);
            && Form(n, B, z, w) == Mix(j, p, q, c, s, Form(n, B, z, Col(V, p)), Form(n, B, z, Col(V, q)),
                                       Form(n, B, z, Col(V, j)))
            && Form(n, B, w, z) == Mix(j, p, q, c, s, Form(n, B, Col(V, p), z), Form(n, B, Col(V, q), z),
                                       Form(n, B, Col(V, j), z))
  {
    hide Form;
    var w := Col(RotateCols(V, p, q, c, s), j);
    forall k | 0 <= k < n ensures w(k) == Mix(j, p, q, c, s, V(k, p), V(k, q), V(k, j)) {
      ColsAt(V, p, q, c, s, k, j);
    }
    if j == p {
      FormLinear(n, B, c, Col(V, p), -s, Col(V, q), w, z);
    } else if j == q {
      FormLinear(n, B, s, Col(V, p), c, Col(V, q), w, z);
    } else {
      FormLinear(n, B, 1.0, Col(V, j), 0.0, Col(V, j), w, z);
    }
  }

  /** The form of the identity is the dot product. */
  lemma FormOfIdentity(n: nat, u: Vec, w: Vec)
    ensures Form(n, Identity, u, w) == Dot(n, u, w)
  {
    forall k | 0 <= k < n ensures Apply(n, Identity, w)(k) == w(k) {
      var f := Mul(Row(Identity, k), w);
      forall j | 0 <= j < n && j != k ensures f(j) == 0.0 {
        assert f(j) == Identity(k, j) * w(j);
      }
      SumOnly(n, f, k);
      assert f(k) == Identity(k, k) * w(k);
    }
    DotCong(n, u, Apply(n, Identity, w), u, w);
  }

  lemma RotateKeepsCols(n: nat, V: Mat, p: int, q: int, c: real, s: real)
    requires 0 <= p < q < n && c * c + s * s == 1.0
    requires OrthonormalCols(n, V)
    ensures OrthonormalCols(n, RotateCols(V, p, q, c, s))
  {
    var W := RotateCols(V, p, q, c, s);
    forall i, j | 0 <= i < n && 0 <= j < n ensures Form(n, Identity, Col(V, i), Col(V, j)) == Identity(i, j) {
      FormOfIdentity(n, Col(V, i), Col(V, j));
    }
    forall i, j | 0 <= i < n && 0 <= j < n ensures Dot(n, Col(W, i), Col(W, j)) == Identity(i, j) {
      RotatedEntryIsForm(n, Identity, Identity, V, p, q, c, s, i, j);
      FormOfIdentity(n, Col(W, i), Col(W, j));
      RotatedIdentity(p, q, c, s, i, j);
    }
  }

  lemma RotatedIdentity(p: int, q: int, c: real, s: real, i: int, j: int)
    requires p != q && c * c + s * s == 1.0
    ensures Rotate(Identity, p, q, c, s)(i, j) == Identity(i, j)
  {
    var B := RotateCols(Identity, p, q, c, s);
    ColsAt(Identity, p, q, c, s, p, j);
    ColsAt(Identity, p, q, c, s, q, j);
    ColsAt(Identity, p, q, c, s, i, j);
    RowsAt(B, p, q, c, s, i, j);
  }

  /** Rotating two coordinates keeps every dot product of rows. */
  lemma RotateKeepsRowDot(n: nat, M: Mat, i: int, j: int, p: int, q: int, c: real, s: real)
    requires 0 <= p < q < n && c * c + s * s == 1.0
    ensures var W := RotateCols(M, p, q, c, s);
            Dot(n, Row(W, i), Row(W, j)) == Dot(n, Row(M, i), Row(M, j))
  {
    var W := RotateCols(M, p, q, c, s);
    var f, g := Mul(Row(M, i), Row(M, j)), Mul(Row(W, i), Row(W, j));
    forall k | 0 <= k < n
      ensures W(i, k) == Mix(k, p, q, c, s, M(i, p), M(i, q), M(i, k))
      ensures W(j, k) == Mix(k, p, q, c, s, M(j, p), M(j, q), M(j, k))
    {
      ColsAt(M, p, q, c, s, i, k);
      ColsAt(M, p, q, c, s, j, k);
    }
    PlaneDot(c, s, M(i, p), M(i, q), M(j, p), M(j, q), W(i, p), W(i, q), W(j, p), W(j, q));
    hide Sum, Mix;
    SumChangeTwo(n, f, g, p, q);
  }

  /** A plane rotation of two vectors keeps their dot product. */
  lemma PlaneDot(c: real, s: real, a: real, b: real, d: real, e: real, a': real, b': real, d': real, e': real)
    requires c * c + s * s == 1.0
    requires a' == c * a - s * b && b' == s * a + c * b
    requires d' == c * d - s * e && e' == s * d + c * e
    ensures a' * d' + b' * e' == a * d + b * e
  {
    calc {
      a' * d' + b' * e';
      (c * a - s * b) * (c * d - s * e) + (s * a + c * b) * (s * d + c * e);
      (c * c + s * s) * (a * d) + (c * c + s * s) * (b * e);
      a * d + b * e;
    }
  }

  // --- The energy off the diagonal -------------------------------------------

  function Square(A: Mat): Mat { (i, j) => Sq(A(i, j)) }

  function SquareDiag(A: Mat): Vec { i => Sq(A(i, i)) }

  function Frobenius(n: nat, A: Mat): real { Sum(n, RowSum(n, Square(A))) }

  lemma FrobeniusSplits(n: nat, A: Mat)
    requires Symmetric(n, A)
    ensures Frobenius(n, A) == 2.0 * Off(n, A) + Sum(n, SquareDiag(A))
  {
    hide Sum;
    var above := SquareAbove(A);
    var left, right, diag, all := ColSum(n, above), RowSum(n, above), SquareDiag(A), RowSum(n, Square(A));
    var rest := i => left(i) + diag(i);
    forall i | 0 <= i < n ensures all(i) == 1.0 * right(i) + 1.0 * rest(i) {
      RowSplits(n, A, i);
    }
    SumLinear(n, 1.0, right, 1.0, rest, all);
    SumLinear(n, 1.0, left, 1.0, diag, rest);
    SumSwap(n, n, above);
  }

  lemma RowSplits(n: nat, A: Mat, i: int)
    requires Symmetric(n, A) && 0 <= i < n
    ensures RowSum(n, Square(A))(i)
         == RowSum(n, SquareAbove(A))(i) + ColSum(n, SquareAbove(A))(i) + Sq(A(i, i))
  {
    hide Sum, Sq;
    var above := SquareAbove(A);
    var right, below, all := j => above(i, j), j => above(j, i), j => Square(A)(i, j);
    var diag := j => if j == i then Sq(A(i, i)) else 0.0;
    var rest := j => below(j) + diag(j);
    SumOnly(n, diag, i);
    SumLinear(n, 1.0, below, 1.0, diag, rest);
    forall j | 0 <= j < n ensures all(j) == right(j) + rest(j) {
      assert A(i, j) == A(j, i);
      assert all(j) == Square(A)(i, j);
    }
    SumLinear(n, 1.0, right, 1.0, rest, all);
    assert RowSum(n, above)(i) == Sum(n, j => above(i, j));
    assert ColSum(n, above)(i) == Sum(n, j => above(j, i));
    assert RowSum(n, Square(A))(i) == Sum(n, all);
  }

  lemma SquareRow(n: nat, A: Mat, i: int)
    ensures RowSum(n, Square(A))(i) == Dot(n, Row(A, i), Row(A, i))
  {
    var f, g := j => Square(A)(i, j), Mul(Row(A, i), Row(A, i));
    forall j | 0 <= j < n ensures f(j) == g(j) {
      assert f(j) == Square(A)(i, j) == Sq(A(i, j)) && g(j) == Row(A, i)(j) * Row(A, i)(j);
    }
    SumCong(n, f, g);
  }

  lemma RotateKeepsColumnSquares(n: nat, B: Mat, p: int, q: int, c: real, s: real, j: int)
    requires 0 <= p < q < n && c * c + s * s == 1.0
    ensures ColSum(n, Square(RotateRows(B, p, q, c, s)))(j) == ColSum(n, Square(B))(j)
  {
    var C := RotateRows(B, p, q, c, s);
    var f, g := i => Square(B)(i, j), i => Square(C)(i, j);
    forall i | 0 <= i < n
      ensures f(i) == Sq(B(i, j)) && g(i) == Sq(C(i, j))
      ensures C(i, j) == Mix(i, p, q, c, s, B(p, j), B(q, j), B(i, j))
    {
      RowsAt(B, p, q, c, s, i, j);
      assert f(i) == Square(B)(i, j) && g(i) == Square(C)(i, j);
    }
    PlaneDot(c, s, B(p, j), B(q, j), B(p, j), B(q, j), C(p, j), C(q, j), C(p, j), C(q, j));
    assert f(p) + f(q) == g(p) + g(q);
    hide Sum, RotateRows, Sq;
    SumChangeTwo(n, f, g, p, q);
  }

  lemma RotateKeepsFrobenius(n: nat, A: Mat, p: int, q: int, c: real, s: real)
    requires 0 <= p < q < n && c * c + s * s == 1.0
    ensures Frobenius(n, Rotate(A, p, q, c, s)) == Frobenius(n, A)
  {
    var B := RotateCols(A, p, q, c, s);
    var C := RotateRows(B, p, q, c, s);
    forall i | 0 <= i < n ensures RowSum(n, Square(B))(i) == RowSum(n, Square(A))(i) {
      RotateKeepsRowDot(n, A, i, i, p, q, c, s);
      SquareRow(n, B, i);
      SquareRow(n, A, i);
    }
    SumCong(n, RowSum(n, Square(B)), RowSum(n, Square(A)));
    SumSwap(n, n, Square(B));
    SumSwap(n, n, Square(C));
    forall j | 0 <= j < n ensures ColSum(n, Square(C))(j) == ColSum(n, Square(B))(j) {
      RotateKeepsColumnSquares(n, B, p, q, c, s, j);
    }
    SumCong(n, ColSum(n, Square(C)), ColSum(n, Square(B)));
  }

  /** The algebra of the 2 x 2 block x y / y z under the solver's angle. */
  lemma PlaneEntries(x: real, y: real, z: real, t: real, c: real, s: real)
    requires c * c + s * s == 1.0 && s == t * c && (z - x) * t == y * (1.0 - t * t)
    ensures c * (c * x - s * y) - s * (c * y - s * z) == x - t * y
    ensures s * (s * x + c * y) + c * (s * y + c * z) == z + t * y
    ensures c * (s * x + c * y) - s * (s * y + c * z) == 0.0
    ensures s * (c * x - s * y) + c * (c * y - s * z) == 0.0
  {
    var d := c * c;
    assert d * (1.0 + t * t) == 1.0 by {
      assert c * c + (t * c) * (t * c) == d * (1.0 + t * t);
    }
    assert t * t * (z - x) == t * y - t * t * t * y by {
      assert t * ((z - x) * t) == t * (y * (1.0 - t * t));
    }
    calc {
      c * (c * x - s * y) - s * (c * y - s * z);
      d * (x - 2.0 * t * y + t * t * z);
      d * ((1.0 + t * t) * (x - t * y));
      (d * (1.0 + t * t)) * (x - t * y);
      x - t * y;
    }
    calc {
      s * (s * x + c * y) + c * (s * y + c * z);
      d * (t * t * x + 2.0 * t * y + z);
      d * ((1.0 + t * t) * (z + t * y));
      (d * (1.0 + t * t)) * (z + t * y);
      z + t * y;
    }
    assert c * (s * x + c * y) - s * (s * y + c * z) == d * (y * (1.0 - t * t) - (z - x) * t);
    assert s * (c * x - s * y) + c * (c * y - s * z) == d * (y * (1.0 - t * t) - (z - x) * t);
  }

  lemma RotatedAt(A: Mat, p: int, q: int, c: real, s: real, i: int, j: int)
    ensures Rotate(A, p, q, c, s)(i, j) == Mix(i, p, q, c, s, Mix(j, p, q, c, s, A(p, p), A(p, q), A(p, j)),
                                               Mix(j, p, q, c, s, A(q, p), A(q, q), A(q, j)),
                                               Mix(j, p, q, c, s, A(i, p), A(i, q), A(i, j)))
  {
    hide Mix;
    var B := RotateCols(A, p, q, c, s);
    RowsAt(B, p, q, c, s, i, j);
    ColsAt(A, p, q, c, s, p, j);
    ColsAt(A, p, q, c, s, q, j);
    ColsAt(A, p, q, c, s, i, j);
  }

  /** The four entries where the two rotated coordinates meet are those the eigensolver writes. */
  lemma RotatedEntries(n: nat, A: Mat, p: int, q: int, t: real, c: real, s: real)
    requires 0 <= p < q < n && Symmetric(n, A) && IsAngle(A, p, q, t, c, s)
    ensures var R := Rotate(A, p, q, c, s);
            && R(p, p) == A(p, p) - t * A(p, q)
            && R(q, q) == A(q, q) + t * A(p, q)
            && R(p, q) == 0.0 && R(q, p) == 0.0
  {
    RotatedAt(A, p, q, c, s, p, p);
    RotatedAt(A, p, q, c, s, q, q);
    RotatedAt(A, p, q, c, s, p, q);
    RotatedAt(A, p, q, c, s, q, p);
    assert A(q, p) == A(p, q);
    hide *;
    MixBlock(p, q, A(p, p), A(p, q), A(q, q), t, c, s);
  }

  lemma MixBlock(p: int, q: int, x: real, y: real, z: real, t: real, c: real, s: real)
    requires p != q && c * c + s * s == 1.0 && s == t * c && (z - x) * t == y * (1.0 - t * t)
    ensures var mp, mq := Mix(p, p, q, c, s, x, y, x), Mix(p, p, q, c, s, y, z, y);
            Mix(p, p, q, c, s, mp, mq, mp) == x - t * y && Mix(q, p, q, c, s, mp, mq, mq) == 0.0
    ensures var mp, mq := Mix(q, p, q, c, s, x, y, y), Mix(q, p, q, c, s, y, z, z);
            Mix(p, p, q, c, s, mp, mq, mp) == 0.0 && Mix(q, p, q, c, s, mp, mq, mq) == z + t * y
  {
    PlaneEntries(x, y, z, t, c, s);
  }

  lemma RotateKeepsSymmetric(n: nat, A: Mat, p: int, q: int, t: real, c: real, s: real)
    requires 0 <= p < q < n && Symmetric(n, A) && IsAngle(A, p, q, t, c, s)
    ensures Symmetric(n, Rotate(A, p, q, c, s))
  {
    RotatedEntries(n, A, p, q, t, c, s);
    RotatedBeside(n, A, p, q, t, c, s);
    hide Rotate;
  }

  lemma RotatedBeside(n: nat, A: Mat, p: int, q: int, t: real, c: real, s: real)
    requires 0 <= p < q < n && Symmetric(n, A)
    ensures var R := Rotate(A, p, q, c, s);
            && (forall i :: 0 <= i < n && i != p && i != q ==> R(i, p) == R(p, i) == c * A(i, p) - s * A(i, q))
            && (forall i :: 0 <= i < n && i != p && i != q ==> R(i, q) == R(q, i) == s * A(i, p) + c * A(i, q))
            && (forall i, j :: 0 <= i < n && 0 <= j < n && i != p && i != q && j != p && j != q ==> R(i, j) == A(i, j))
  {
    var R := Rotate(A, p, q, c, s);
    forall i | 0 <= i < n && i != p && i != q
      ensures R(i, p) == R(p, i) == c * A(i, p) - s * A(i, q)
      ensures R(i, q) == R(q, i) == s * A(i, p) + c * A(i, q)
    {
      RotatedAt(A, p, q, c, s, i, p);
      RotatedAt(A, p, q, c, s, i, q);
      RotatedAt(A, p, q, c, s, p, i);
      RotatedAt(A, p, q, c, s, q, i);
      assert A(i, p) == A(p, i) && A(i, q) == A(q, i);
      hide Rotate;
    }
    forall i, j | 0 <= i < n && 0 <= j < n && i != p && i != q && j != p && j != q ensures R(i, j) == A(i, j) {
      RotatedAt(A, p, q, c, s, i, j);
    }
  }

  lemma PlaneDiagonal(x: real, y: real, z: real, t: real, x': real, z': real)
    requires (z - x) * t == y * (1.0 - t * t)
    requires x' == x - t * y && z' == z + t * y
    ensures Sq(x') + Sq(z') == Sq(x) + Sq(z) + 2.0 * Sq(y)
  {
    calc {
      x' * x' + z' * z';
      (x - t * y) * (x - t * y) + (z + t * y) * (z + t * y);
      x * x + z * z + 2.0 * y * ((z - x) * t) + 2.0 * t * t * y * y;
      x * x + z * z + 2.0 * y * (y * (1.0 - t * t)) + 2.0 * t * t * y * y;
      x * x + z * z + 2.0 * (y * y);
    }
  }

  /** A rotation by the solver's angle removes exactly the eliminated square. */
  lemma RotateLowersOff(n: nat, A: Mat, p: int, q: int, t: real, c: real, s: real)
    requires 0 <= p < q < n && Symmetric(n, A) && IsAngle(A, p, q, t, c, s)
    ensures Off(n, Rotate(A, p, q, c, s)) == Off(n, A) - Sq(A(p, q))
  {
    var R := Rotate(A, p, q, c, s);
    RotateKeepsSymmetric(n, A, p, q, t, c, s);
    RotateKeepsFrobenius(n, A, p, q, c, s);
    RotateAddsToDiagonal(n, A, p, q, t, c, s);
    hide *;
    FrobeniusSplits(n, A);
    FrobeniusSplits(n, R);
  }

  lemma RotateAddsToDiagonal(n: nat, A: Mat, p: int, q: int, t: real, c: real, s: real)
    requires 0 <= p < q < n && Symmetric(n, A) && IsAngle(A, p, q, t, c, s)
    ensures Sum(n, SquareDiag(Rotate(A, p, q, c, s))) == Sum(n, SquareDiag(A)) + 2.0 * Sq(A(p, q))
  {
    DiagonalSquares(n, A, p, q, t, c, s);
    hide *;
    SumChangeTwo(n, SquareDiag(A), SquareDiag(Rotate(A, p, q, c, s)), p, q);
  }

  lemma DiagonalSquares(n: nat, A: Mat, p: int, q: int, t: real, c: real, s: real)
    requires 0 <= p < q < n && Symmetric(n, A) && IsAngle(A, p, q, t, c, s)
    ensures var f, g := SquareDiag(A), SquareDiag(Rotate(A, p, q, c, s));
            && g(p) + g(q) == f(p) + f(q) + 2.0 * Sq(A(p, q))
            && forall i :: 0 <= i < n && i != p && i != q ==> f(i) == g(i)
  {
    hide Sq, Rotate;
    var R := Rotate(A, p, q, c, s);
    RotatedEntries(n, A, p, q, t, c, s);
    RotatedBeside(n, A, p, q, t, c, s);
    PlaneDiagonal(A(p, p), A(p, q), A(q, q), t, R(p, p), R(q, q));
    hide IsAngle;
    assert SquareDiag(R)(p) == Sq(R(p, p)) && SquareDiag(R)(q) == Sq(R(q, q));
    assert SquareDiag(A)(p) == Sq(A(p, p)) && SquareDiag(A)(q) == Sq(A(q, q));
    forall i | 0 <= i < n && i != p && i != q ensures SquareDiag(A)(i) == SquareDiag(R)(i) {
      assert R(i, i) == A(i, i);
    }
  }

  lemma RotateKeepsTrace(n: nat, A: Mat, p: int, q: int, t: real, c: real, s: real)
    requires 0 <= p < q < n && Symmetric(n, A) && IsAngle(A, p, q, t, c, s)
    ensures Trace(n, Rotate(A, p, q, c, s)) == Trace(n, A)
  {
    RotatedEntries(n, A, p, q, t, c, s);
    RotatedBeside(n, A, p, q, t, c, s);
    var R := Rotate(A, p, q, c, s);
    hide Sum, Rotate;
    SumChangeTwo(n, i => A(i, i), i => R(i, i), p, q);
  }

  // --- Orthogonal rows preserve dot products ------------------------------------

  /** The coordinates of u along the columns of M. */
  function Coords(n: nat, u: Vec, M: Mat): Vec { j => Dot(n, u, Col(M, j)) }

  lemma Commute(x: real, y: real, z: real)
    ensures x * (y * z) == z * (x * y)
  {
  }

  lemma RowTerm(n: nat, u: Vec, M: Mat, w: Vec, F: Mat, i: int)
    requires forall j :: 0 <= j < n ==> F(i, j) == u(i) * (M(i, j) * w(j))
    ensures Sum(n, j => F(i, j)) == u(i) * Dot(n, Row(M, i), w)
  {
    var f := j => F(i, j);
    SumScale(n, u(i), Mul(Row(M, i), w), f);
  }

  lemma ColTerm(n: nat, u: Vec, M: Mat, w: Vec, F: Mat, j: int)
    requires forall i :: 0 <= i < n ==> F(i, j) == u(i) * (M(i, j) * w(j))
    ensures Sum(n, i => F(i, j)) == w(j) * Dot(n, u, Col(M, j))
  {
    var f, g := i => F(i, j), Mul(u, Col(M, j));
    forall i | 0 <= i < n ensures f(i) == w(j) * g(i) {
      Commute(u(i), M(i, j), w(j));
    }
    SumScale(n, w(j), g, f);
  }

  /** u' (M w) == (u' M) w. */
  lemma Transfer(n: nat, u: Vec, M: Mat, w: Vec)
    ensures Dot(n, u, Apply(n, M, w)) == Dot(n, w, Coords(n, u, M))
  {
    hide Sum;
    var F := (i: int, j: int) => u(i) * (M(i, j) * w(j));
    SumSwap(n, n, F);
    var left, right := Mul(u, Apply(n, M, w)), Mul(w, Coords(n, u, M));
    forall i | 0 <= i < n ensures RowSum(n, F)(i) == left(i) {
      RowTerm(n, u, M, w, F, i);
      assert left(i) == u(i) * Dot(n, Row(M, i), w);
      assert RowSum(n, F)(i) == Sum(n, j => F(i, j));
    }
    SumCong(n, RowSum(n, F), left);
    forall j | 0 <= j < n ensures ColSum(n, F)(j) == right(j) {
      ColTerm(n, u, M, w, F, j);
      assert right(j) == w(j) * Dot(n, u, Col(M, j));
      assert ColSum(n, F)(j) == Sum(n, i => F(i, j));
    }
    SumCong(n, ColSum(n, F), right);
  }

  lemma DotUnit(n: nat, i: int, w: Vec)
    requires 0 <= i < n
    ensures Dot(n, Col(Identity, i), w) == w(i) == Dot(n, w, Col(Identity, i))
  {
    var f, g := Mul(Col(Identity, i), w), Mul(w, Col(Identity, i));
    forall j | 0 <= j < n && j != i ensures f(j) == 0.0 && g(j) == 0.0 {
      assert f(j) == Identity(j, i) * w(j) && g(j) == w(j) * Identity(j, i);
    }
    SumOnly(n, f, i);
    SumOnly(n, g, i);
    assert f(i) == Identity(i, i) * w(i) && g(i) == w(i) * Identity(i, i);
  }

  lemma DotSymmetric(n: nat, u: Vec, w: Vec)
    ensures Dot(n, u, w) == Dot(n, w, u)
  {
    SumCong(n, Mul(u, w), Mul(w, u));
  }

  /** With orthonormal rows, R (R' w) == w. */
  lemma RowsInvert(n: nat, R: Mat, w: Vec, i: int)
    requires OrthonormalRows(n, R) && 0 <= i < n
    ensures Apply(n, R, Coords(n, w, R))(i) == w(i)
  {
    Transfer(n, w, R, Row(R, i));
    var dots := Apply(n, R, Row(R, i));
    forall l | 0 <= l < n ensures dots(l) == Col(Identity, i)(l) {
      assert dots(l) == Dot(n, Row(R, l), Row(R, i)) == Identity(l, i);
    }
    DotCong(n, w, dots, w, Col(Identity, i));
    DotUnit(n, i, w);
    assert Apply(n, R, Coords(n, w, R))(i) == Dot(n, Row(R, i), Coords(n, w, R));
  }

  /** Dot products survive a change to the coordinates of a matrix with orthonormal rows. */
  lemma Parseval(n: nat, R: Mat, u: Vec, w: Vec)
    requires OrthonormalRows(n, R)
    ensures Dot(n, Coords(n, u, R), Coords(n, w, R)) == Dot(n, u, w)
  {
    var wc := Coords(n, w, R);
    Transfer(n, u, R, wc);
    forall i | 0 <= i < n ensures Apply(n, R, wc)(i) == w(i) {
      RowsInvert(n, R, w, i);
    }
    DotCong(n, u, Apply(n, R, wc), u, w);
    DotSymmetric(n, wc, Coords(n, u, R));
  }
}
