/** The cyclic Jacobi eigensolver, in place on a square matrix. */
module Jacobi {
  import opened Sums
  import opened JacobiTheory

  const MAX_SWEEPS: nat := 100

  ghost predicate Holds(a: array2<real>, n: nat, A: Mat)
    reads a
  {
    && a.Length0 == n && a.Length1 == n
    && forall i, j :: 0 <= i < n && 0 <= j < n ==> a[i, j] == A(i, j)
  }

  /** The square root, by its defining equation. */
  ghost predicate IsSqrt(sqrt: real -> real) {
    forall x :: 0.0 <= x ==> 0.0 <= sqrt(x) && sqrt(x) * sqrt(x) == x
  }

  /** What every rotation keeps: A is symmetric, equals V' A0 V for an orthogonal V, has the trace of
      A0, and has no more energy off the diagonal. */
  ghost predicate Reached(n: nat, A0: Mat, A: Mat, V: Mat) {
    && Symmetric(n, A)
    && Congruent(n, A0, A, V)
    && OrthonormalCols(n, V)
    && OrthonormalRows(n, V)
    && Trace(n, A) == Trace(n, A0)
    && Off(n, A) <= Off(n, A0)
  }

  lemma RotateKeepsReached(n: nat, A0: Mat, A: Mat, V: Mat, p: int, q: int, t: real, c: real, s: real)
    requires 0 <= p < q < n && Reached(n, A0, A, V) && IsAngle(A, p, q, t, c, s)
    ensures Reached(n, A0, Rotate(A, p, q, c, s), RotateCols(V, p, q, c, s))
  {
    RotateKeepsSymmetric(n, A, p, q, t, c, s);
    RotateKeepsCongruent(n, A0, A, V, p, q, c, s);
    RotateKeepsCols(n, V, p, q, c, s);
    var W := RotateCols(V, p, q, c, s);
    forall i, j | 0 <= i < n && 0 <= j < n ensures Dot(n, Row(W, i), Row(W, j)) == Identity(i, j) {
      RotateKeepsRowDot(n, V, i, j, p, q, c, s);
    }
    RotateKeepsTrace(n, A, p, q, t, c, s);
    RotateLowersOff(n, A, p, q, t, c, s);
  }

  lemma StartReached(n: nat, A0: Mat)
    requires Symmetric(n, A0)
    ensures Reached(n, A0, A0, Identity)
  {
    forall i, j | 0 <= i < n && 0 <= j < n
      ensures Dot(n, Row(Identity, i), Row(Identity, j)) == Identity(i, j)
      ensures Dot(n, Col(Identity, i), Col(Identity, j)) == Identity(i, j)
      ensures A0(i, j) == Form(n, A0, Col(Identity, i), Col(Identity, j))
    {
      DotUnit(n, i, Row(Identity, j));
      DotCong(n, Row(Identity, i), Row(Identity, j), Col(Identity, i), Row(Identity, j));
      DotUnit(n, i, Col(Identity, j));
      DotUnit(n, i, Apply(n, A0, Col(Identity, j)));
      DotUnit(n, j, Row(A0, i));
      DotSymmetric(n, Row(A0, i), Col(Identity, j));
      assert Apply(n, A0, Col(Identity, j))(i) == Dot(n, Row(A0, i), Col(Identity, j));
    }
  }

  // --- One rotation ------------------------------------------------------------

  /** The tangent, cosine and sine that annihilate apq. */
  method Angle(app: real, aqq: real, apq: real, sqrt: real -> real, ghost A: Mat, ghost p: int, ghost q: int)
    returns (t: real, c: real, s: real)
    requires IsSqrt(sqrt) && apq != 0.0
    requires A(p, p) == app && A(q, q) == aqq && A(p, q) == apq
    ensures IsAngle(A, p, q, t, c, s)
  {
    var tau := (aqq - app) / (2.0 * apq);
    var r := sqrt(1.0 + tau * tau);
    TauSquare(tau, r);
    var abs := if tau < 0.0 then -tau else tau;
    t := (if tau >= 0.0 then 1.0 else -1.0) / (abs + r);
    TangentRoot(tau, r, t);
    TauSquare(t, sqrt(1.0 + t * t));
    c := 1.0 / sqrt(1.0 + t * t);
    s := t * c;
    ghost var d := sqrt(1.0 + t * t);
    assert c * d == 1.0;
    assert c * c + s * s == 1.0 by {
      assert c * c + (t * c) * (t * c) == c * c * (1.0 + t * t);
      assert c * c * (d * d) == (c * d) * (c * d);
    }
    assert (aqq - app) * t == apq * (1.0 - t * t) by {
      assert 2.0 * apq * tau == aqq - app;
      assert (aqq - app) * t == apq * (2.0 * tau * t);
    }
  }

  lemma TauSquare(tau: real, r: real)
    requires 0.0 <= 1.0 + tau * tau ==> 0.0 <= r && r * r == 1.0 + tau * tau
    ensures 1.0 <= 1.0 + tau * tau && 1.0 <= r && r * r == 1.0 + tau * tau
  {
    assert 0.0 <= tau * tau;
    assert r < 1.0 ==> r * r <= r * 1.0;
  }

  /** t is the smaller root of t*t + 2*tau*t - 1. */
  lemma TangentRoot(tau: real, r: real, t: real)
    requires 1.0 <= r && r * r == 1.0 + tau * tau
    requires var abs := if tau < 0.0 then -tau else tau;
             t == (if tau >= 0.0 then 1.0 else -1.0) / (abs + r)
    ensures t * t + 2.0 * tau * t == 1.0
    ensures -1.0 <= t <= 1.0
  {
    var abs := if tau < 0.0 then -tau else tau;
    assert (r - abs) * (r + abs) == 1.0;
    var u := 1.0 / (abs + r);
    assert u * (abs + r) == 1.0;
    assert u == r - abs by {
      assert (u - (r - abs)) * (abs + r) == 0.0;
    }
    assert 0.0 < u <= 1.0;
    assert u * u + 2.0 * abs * u == 1.0;
  }

  method RotateInPlace(a: array2<real>, v: array2<real>, n: nat, p: nat, q: nat, sqrt: real -> real,
                       ghost A: Mat, ghost V: Mat)
    returns (ghost t: real, ghost c: real, ghost s: real)
    requires p < q < n && a != v && IsSqrt(sqrt)
    requires Holds(a, n, A) && Holds(v, n, V) && Symmetric(n, A) && A(p, q) != 0.0
    modifies a, v
    ensures IsAngle(A, p, q, t, c, s)
    ensures Holds(a, n, Rotate(A, p, q, c, s))
    ensures Holds(v, n, RotateCols(V, p, q, c, s))
  {
    var apq, app, aqq := a[p, q], a[p, p], a[q, q];
    var t0, c0, s0 := Angle(app, aqq, apq, sqrt, A, p, q);
    t, c, s := t0, c0, s0;
    ghost var R := Rotate(A, p, q, c, s);
    RotatedEntries(n, A, p, q, t, c, s);
    RotatedBeside(n, A, p, q, t, c, s);
    EliminateInPlace(a, n, p, q, t0, c0, s0, A, R);
    RotateBasis(v, n, p, q, c0, s0, V);
  }

  /** Rows and columns p and q of the matrix, given what the rotated matrix R holds there. */
  method EliminateInPlace(a: array2<real>, n: nat, p: nat, q: nat, t: real, c: real, s: real, ghost A: Mat,
                          ghost R: Mat)
    requires p < q < n && Holds(a, n, A)
    requires R(p, p) == A(p, p) - t * A(p, q) && R(q, q) == A(q, q) + t * A(p, q) && R(p, q) == 0.0 && R(q, p) == 0.0
    requires forall i :: 0 <= i < n && i != p && i != q ==> R(i, p) == R(p, i) == c * A(i, p) - s * A(i, q)
    requires forall i :: 0 <= i < n && i != p && i != q ==> R(i, q) == R(q, i) == s * A(i, p) + c * A(i, q)
    requires forall i, j :: 0 <= i < n && 0 <= j < n && i != p && i != q && j != p && j != q ==> R(i, j) == A(i, j)
    modifies a
    ensures Holds(a, n, R)
  {
    var apq := a[p, q];
    a[p, p] := a[p, p] - t * apq;
    a[q, q] := a[q, q] + t * apq;
    a[p, q] := 0.0;
    a[q, p] := 0.0;
    var i := 0;
    while i < n
      invariant i <= n
      invariant forall x, y :: 0 <= x < n && 0 <= y < n ==> a[x, y] == if Done(x, y, i, p, q) then R(x, y) else A(x, y)
    {
      if i != p && i != q {
        var aip, aiq := a[i, p], a[i, q];
        assert aip == A(i, p) && aiq == A(i, q);
        var newIp, newIq := c * aip - s * aiq, s * aip + c * aiq;
        assert newIp == R(i, p) == R(p, i) && newIq == R(i, q) == R(q, i);
        WriteBeside(a, n, i, p, q, newIp, newIq);
      }
      i := i + 1;
    }
    assert forall x, y :: 0 <= x < n && 0 <= y < n ==> Done(x, y, n, p, q);
  }

  method WriteBeside(a: array2<real>, n: nat, i: nat, p: nat, q: nat, newIp: real, newIq: real)
    requires p < q < n && i < n && i != p && i != q && a.Length0 == n && a.Length1 == n
    modifies a
    ensures forall x, y :: 0 <= x < n && 0 <= y < n ==>
      a[x, y] == if (x == i && y == p) || (x == p && y == i) then newIp
                 else if (x == i && y == q) || (x == q && y == i) then newIq
                 else old(a[x, y])
  {
    a[i, p] := newIp;
    a[p, i] := newIp;
    a[i, q] := newIq;
    a[q, i] := newIq;
  }

  /** An entry the loop over i has written, or never writes. */
  ghost predicate Done(x: int, y: int, i: int, p: int, q: int) {
    if x == p || x == q then y == p || y == q || y < i
    else if y == p || y == q then x < i
    else true
  }

  method RotateBasis(v: array2<real>, n: nat, p: nat, q: nat, c: real, s: real, ghost V: Mat)
    requires p < q < n && Holds(v, n, V)
    modifies v
    ensures Holds(v, n, RotateCols(V, p, q, c, s))
  {
    ghost var W := RotateCols(V, p, q, c, s);
    hide RotateCols;
    var i := 0;
    while i < n
      invariant i <= n
      invariant forall x, y :: 0 <= x < n && 0 <= y < n ==> v[x, y] == if x < i then W(x, y) else V(x, y)
    {
      RotatedRow(V, p, q, c, s, i);
      var vip, viq := v[i, p], v[i, q];
      v[i, p] := c * vip - s * viq;
      v[i, q] := s * vip + c * viq;
      i := i + 1;
    }
  }

  lemma RotatedRow(V: Mat, p: nat, q: nat, c: real, s: real, i: int)
    requires p < q
    ensures var W := RotateCols(V, p, q, c, s);
            && W(i, p) == c * V(i, p) - s * V(i, q) && W(i, q) == s * V(i, p) + c * V(i, q)
            && forall y :: y != p && y != q ==> W(i, y) == V(i, y)
  {
    forall y {
      ColsAt(V, p, q, c, s, i, y);
    }
  }

  // --- Sweeps --------------------------------------------------------------------

  method MeasureOff(a: array2<real>, n: nat, ghost A: Mat) returns (off: real)
    requires Holds(a, n, A)
    ensures off == Off(n, A)
  {
    hide Sum;
    off := 0.0;
    ghost var F := SquareAbove(A);
    SumZero(0, RowSum(n, F));
    var p := 0;
    while p < n
      invariant p <= n
      invariant off == Sum(p, RowSum(n, F))
    {
      ghost var cell := j => F(p, j);
      var q := p + 1;
      SumZero(p + 1, cell);
      while q < n
        invariant p + 1 <= q <= n
        invariant off == Sum(p, RowSum(n, F)) + Sum(q, cell)
      {
        var apq := a[p, q];
        assert cell(q) == Sq(A(p, q)) == apq * apq;
        SumStep(q, cell);
        off := off + apq * apq;
        q := q + 1;
      }
      assert RowSum(n, F)(p) == Sum(n, cell);
      SumStep(p, RowSum(n, F));
      p := p + 1;
    }
  }

  lemma SquareNonneg(x: real)
    ensures 0.0 <= Sq(x)
  {
  }

  /** What a sweep does at one entry: nothing where it is negligible, else the rotation that annihilates it. */
  ghost predicate Eliminated(A: Mat, V: Mat, p: int, q: int, B: Mat, W: Mat) {
    if -1e-300 < A(p, q) < 1e-300 then B == A && W == V
    else exists t, c, s :: IsAngle(A, p, q, t, c, s) && B == Rotate(A, p, q, c, s) && W == RotateCols(V, p, q, c, s)
  }

  /** B and W are what A and V become once every entry before (p, q), row by row, has been visited. */
  ghost predicate SweptTo(n: nat, A: Mat, V: Mat, p: nat, q: nat, B: Mat, W: Mat)
    requires p <= n && p < q
    decreases p, q
  {
    if q > p + 1 then
      var r := q - 1;
      exists B', W' :: SweptTo(n, A, V, p, r, B', W') && Eliminated(B', W', p, r, B, W)
    else if p == 0 then B == A && W == V
    else SweptTo(n, A, V, p - 1, n, B, W)
  }

  lemma NothingSwept(n: nat, A: Mat, V: Mat)
    ensures SweptTo(n, A, V, 0, 1, A, V)
  {
  }

  lemma EntrySwept(n: nat, A: Mat, V: Mat, p: nat, q: nat, B: Mat, W: Mat, B': Mat, W': Mat)
    requires p < q < n && SweptTo(n, A, V, p, q, B, W) && Eliminated(B, W, p, q, B', W')
    ensures SweptTo(n, A, V, p, q + 1, B', W')
  {
  }

  lemma RowSwept(n: nat, A: Mat, V: Mat, p: nat, B: Mat, W: Mat)
    requires p < n && SweptTo(n, A, V, p, n, B, W)
    ensures SweptTo(n, A, V, p + 1, p + 2, B, W)
  {
  }

  lemma RotationEliminates(A: Mat, V: Mat, p: int, q: int, t: real, c: real, s: real)
    requires IsAngle(A, p, q, t, c, s) && !(-1e-300 < A(p, q) < 1e-300)
    ensures Eliminated(A, V, p, q, Rotate(A, p, q, c, s), RotateCols(V, p, q, c, s))
  {
  }

  method Sweep(a: array2<real>, v: array2<real>, n: nat, sqrt: real -> real, ghost A0: Mat, ghost A: Mat, ghost V: Mat)
    returns (ghost B: Mat, ghost W: Mat)
    requires a != v && IsSqrt(sqrt) && Holds(a, n, A) && Holds(v, n, V) && Reached(n, A0, A, V)
    modifies a, v
    ensures Holds(a, n, B) && Holds(v, n, W) && SweptTo(n, A, V, n, n + 1, B, W)
    ensures Reached(n, A0, B, W)
    ensures Off(n, B) <= Off(n, A)
  {
    hide Congruent, OrthonormalCols, OrthonormalRows, Off, Trace, IsAngle, Rotate, RotateCols, IsSqrt, Sq, SweptTo;
    B, W := A, V;
    NothingSwept(n, A, V);
    var p := 0;
    while p < n
      invariant p <= n && SweptTo(n, A, V, p, p + 1, B, W)
      invariant Holds(a, n, B) && Holds(v, n, W) && Reached(n, A0, B, W)
      invariant Off(n, B) <= Off(n, A)
    {
      var q := p + 1;
      while q < n
        invariant p + 1 <= q <= n && SweptTo(n, A, V, p, q, B, W)
        invariant Holds(a, n, B) && Holds(v, n, W) && Reached(n, A0, B, W)
        invariant Off(n, B) <= Off(n, A)
      {
        ghost var B', W' := B, W;
        var apq := a[p, q];
        if !(-1e-300 < apq < 1e-300) {
          ghost var t, c, s := RotateInPlace(a, v, n, p, q, sqrt, B, W);
          RotateKeepsReached(n, A0, B, W, p, q, t, c, s);
          RotateLowersOff(n, B, p, q, t, c, s);
          assert 0.0 <= Sq(B(p, q)) by { SquareNonneg(B(p, q)); }
          RotationEliminates(B, W, p, q, t, c, s);
          B, W := Rotate(B, p, q, c, s), RotateCols(W, p, q, c, s);
        }
        EntrySwept(n, A, V, p, q, B', W', B, W);
        q := q + 1;
      }
      RowSwept(n, A, V, p, B, W);
      p := p + 1;
    }
  }

  // --- The final column sort -------------------------------------------------------

  function Insert(ev: Vec, order: seq<int>, k: int): seq<int> {
    if order == [] then [k]
    else if ev(k) < ev(order[0]) then [k] + order
    else [order[0]] + Insert(ev, order[1..], k)
  }

  /** The indices 0 .. n-1 in ascending order of ev. */
  function SortedOrder(ev: Vec, n: nat): seq<int> {
    if n == 0 then [] else Insert(ev, SortedOrder(ev, n - 1), n - 1)
  }

  ghost predicate Ascending(ev: Vec, order: seq<int>) {
    forall i, j :: 0 <= i < j < |order| ==> ev(order[i]) <= ev(order[j])
  }

  lemma {:induction false} InsertMembers(ev: Vec, order: seq<int>, k: int)
    ensures |Insert(ev, order, k)| == |order| + 1
    ensures forall x :: x in Insert(ev, order, k) <==> x == k || x in order
  {
    if order != [] {
      assert order == [order[0]] + order[1..];
      InsertMembers(ev, order[1..], k);
    }
  }

  ghost predicate Distinct(order: seq<int>) {
    forall i, j :: 0 <= i < j < |order| ==> order[i] != order[j]
  }

  lemma {:induction false} InsertDistinct(ev: Vec, order: seq<int>, k: int)
    requires Distinct(order) && k !in order
    ensures Distinct(Insert(ev, order, k))
  {
    if order != [] && !(ev(k) < ev(order[0])) {
      InsertDistinct(ev, order[1..], k);
      InsertMembers(ev, order[1..], k);
      var tail := Insert(ev, order[1..], k);
      assert forall j :: 0 <= j < |tail| ==> tail[j] in tail;
    }
  }

  lemma {:induction false} InsertAscends(ev: Vec, order: seq<int>, k: int)
    requires Ascending(ev, order)
    ensures Ascending(ev, Insert(ev, order, k))
  {
    if order != [] && !(ev(k) < ev(order[0])) {
      InsertAscends(ev, order[1..], k);
      InsertMembers(ev, order[1..], k);
      var tail := Insert(ev, order[1..], k);
      forall j | 0 <= j < |tail| ensures ev(order[0]) <= ev(tail[j]) {
        assert tail[j] in tail;
        if tail[j] != k {
          assert tail[j] in order[1..];
        }
      }
    }
  }

  lemma {:induction false} SortedOrderSorts(ev: Vec, n: nat)
    ensures IsPermutation(n, SortedOrder(ev, n))
    ensures Ascending(ev, SortedOrder(ev, n))
  {
    if n > 0 {
      SortedOrderSorts(ev, n - 1);
      InsertMembers(ev, SortedOrder(ev, n - 1), n - 1);
      InsertDistinct(ev, SortedOrder(ev, n - 1), n - 1);
      InsertAscends(ev, SortedOrder(ev, n - 1), n - 1);
    }
  }

  function PickCols(V: Mat, order: seq<int>): Mat {
    (i, c) => if 0 <= c < |order| then V(i, order[c]) else 0.0
  }

  function PickBoth(A: Mat, order: seq<int>): Mat {
    (i, j) => if 0 <= i < |order| && 0 <= j < |order| then A(order[i], order[j]) else 0.0
  }

  lemma PickKeepsFrobenius(n: nat, A: Mat, order: seq<int>)
    requires IsPermutation(n, order)
    ensures Frobenius(n, PickBoth(A, order)) == Frobenius(n, A)
  {
    var D := PickBoth(A, order);
    forall i | 0 <= i < n ensures RowSum(n, Square(D))(i) == RowSum(n, Square(A))(order[i]) {
      var f, g := x => Square(A)(order[i], x), x => Square(D)(i, x);
      forall x | 0 <= x < n ensures g(x) == f(order[x]) {
        assert order[i] in order && order[x] in order;
        assert g(x) == Square(D)(i, x) == Sq(D(i, x));
        assert f(order[x]) == Square(A)(order[i], order[x]);
      }
      SumPermute(n, order, f, g);
      assert RowSum(n, Square(D))(i) == Sum(n, g);
      assert RowSum(n, Square(A))(order[i]) == Sum(n, x => Square(A)(order[i], x));
    }
    SumPermute(n, order, RowSum(n, Square(A)), RowSum(n, Square(D)));
  }

  lemma PickKeepsReached(n: nat, A0: Mat, A: Mat, V: Mat, order: seq<int>)
    requires IsPermutation(n, order) && Reached(n, A0, A, V)
    ensures Reached(n, A0, PickBoth(A, order), PickCols(V, order))
    ensures Off(n, PickBoth(A, order)) == Off(n, A)
  {
    var D, E := PickBoth(A, order), PickCols(V, order);
    forall i, j | 0 <= i < n && 0 <= j < n
      ensures D(i, j) == Form(n, A0, Col(E, i), Col(E, j))
      ensures Dot(n, Col(E, i), Col(E, j)) == Identity(i, j)
      ensures Dot(n, Row(E, i), Row(E, j)) == Identity(i, j)
      ensures D(i, j) == D(j, i)
    {
      PickEntry(n, A0, A, V, order, i, j);
    }
    hide Sum, Sq, Form, Dot;
    SumPermute(n, order, i => A(i, i), i => D(i, i));
    PickKeepsOff(n, A, order);
  }

  lemma PickEntry(n: nat, A0: Mat, A: Mat, V: Mat, order: seq<int>, i: int, j: int)
    requires IsPermutation(n, order) && Reached(n, A0, A, V)
    requires 0 <= i < n && 0 <= j < n
    ensures var D, E := PickBoth(A, order), PickCols(V, order);
            && D(i, j) == Form(n, A0, Col(E, i), Col(E, j))
            && Dot(n, Col(E, i), Col(E, j)) == Identity(i, j)
            && Dot(n, Row(E, i), Row(E, j)) == Identity(i, j)
            && D(i, j) == D(j, i)
  {
    hide Sum, Dot, Form, Off, Trace;
    assert order[i] in order && order[j] in order;
    assert A(order[i], order[j]) == A(order[j], order[i]);
    PickedColumns(n, A0, V, order, i, j);
    PickedRows(n, V, order, i, j);
  }

  lemma PickedColumns(n: nat, A0: Mat, V: Mat, order: seq<int>, i: int, j: int)
    requires |order| == n && 0 <= i < n && 0 <= j < n
    ensures var E := PickCols(V, order);
            && Dot(n, Col(E, i), Col(E, j)) == Dot(n, Col(V, order[i]), Col(V, order[j]))
            && Form(n, A0, Col(E, i), Col(E, j)) == Form(n, A0, Col(V, order[i]), Col(V, order[j]))
  {
    hide Sum, Dot, Form;
    var E := PickCols(V, order);
    DotCong(n, Col(E, i), Col(E, j), Col(V, order[i]), Col(V, order[j]));
    FormCong(n, A0, Col(E, i), Col(E, j), Col(V, order[i]), Col(V, order[j]));
  }

  lemma PickedRows(n: nat, V: Mat, order: seq<int>, i: int, j: int)
    requires IsPermutation(n, order) && 0 <= i < n && 0 <= j < n
    ensures var E := PickCols(V, order);
            Dot(n, Row(E, i), Row(E, j)) == Dot(n, Row(V, i), Row(V, j))
  {
    hide Sum;
    var E := PickCols(V, order);
    SumPermute(n, order, Mul(Row(V, i), Row(V, j)), Mul(Row(E, i), Row(E, j)));
  }

  lemma PickKeepsOff(n: nat, A: Mat, order: seq<int>)
    requires IsPermutation(n, order) && Symmetric(n, A)
    ensures Off(n, PickBoth(A, order)) == Off(n, A)
  {
    var D := PickBoth(A, order);
    assert forall i :: 0 <= i < n ==> order[i] in order;
    PickKeepsFrobenius(n, A, order);
    hide Sum, Sq;
    SumPermute(n, order, SquareDiag(A), SquareDiag(D));
    FrobeniusSplits(n, A);
    FrobeniusSplits(n, D);
  }

  lemma FormCong(n: nat, B: Mat, u: Vec, w: Vec, u': Vec, w': Vec)
    requires forall k :: 0 <= k < n ==> u(k) == u'(k) && w(k) == w'(k)
    ensures Form(n, B, u, w) == Form(n, B, u', w')
  {
    forall k | 0 <= k < n ensures Apply(n, B, w)(k) == Apply(n, B, w')(k) {
      DotCong(n, Row(B, k), w, Row(B, k), w');
      assert Apply(n, B, w)(k) == Dot(n, Row(B, k), w) && Apply(n, B, w')(k) == Dot(n, Row(B, k), w');
    }
    DotCong(n, u, Apply(n, B, w), u', Apply(n, B, w'));
  }

  // --- The solver ------------------------------------------------------------------

  method Diagonal(a: array2<real>, n: nat, ghost A: Mat) returns (diagonal: array<real>)
    requires Holds(a, n, A)
    ensures fresh(diagonal) && diagonal.Length == n && forall x :: 0 <= x < n ==> diagonal[x] == A(x, x)
  {
    diagonal := new real[n];
    var i := 0;
    while i < n
      invariant i <= n
      invariant forall x :: 0 <= x < i ==> diagonal[x] == A(x, x)
    {
      diagonal[i] := a[i, i];
      i := i + 1;
    }
  }

  method CopyColumns(v: array2<real>, n: nat, order: seq<int>, ghost V: Mat) returns (e: array2<real>)
    requires Holds(v, n, V) && |order| == n && forall x :: 0 <= x < n ==> 0 <= order[x] < n
    ensures fresh(e) && Holds(e, n, PickCols(V, order))
  {
    e := new real[n, n];
    var c := 0;
    while c < n
      invariant c <= n
      invariant forall x, y :: 0 <= x < n && 0 <= y < c ==> e[x, y] == V(x, order[y])
    {
      var i := 0;
      while i < n
        invariant i <= n
        invariant forall x, y :: 0 <= x < n && 0 <= y < c ==> e[x, y] == V(x, order[y])
        invariant forall x :: 0 <= x < i ==> e[x, c] == V(x, order[c])
      {
        e[i, c] := v[i, order[c]];
        i := i + 1;
      }
      c := c + 1;
    }
  }

  /** A and V are what the input and the identity become in k sweeps, none of them started below the tolerance. */
  ghost predicate AfterSweeps(n: nat, A0: Mat, k: nat, A: Mat, V: Mat) {
    if k == 0 then A == A0 && V == Identity
    else
      var j := k - 1;
      exists A', V' :: AfterSweeps(n, A0, j, A', V') && 1e-28 <= Off(n, A')
        && SweptTo(n, A', V', n, n + 1, A, V)
  }

  lemma NoSweeps(n: nat, A0: Mat)
    ensures AfterSweeps(n, A0, 0, A0, Identity)
  {
  }

  lemma OneMoreSweep(n: nat, A0: Mat, k: nat, A: Mat, V: Mat, B: Mat, W: Mat)
    requires AfterSweeps(n, A0, k, A, V) && 1e-28 <= Off(n, A) && SweptTo(n, A, V, n, n + 1, B, W)
    ensures AfterSweeps(n, A0, k + 1, B, W)
  {
  }

  /** D and E are the outcome of so many sweeps of the solver, its columns in ascending order of the diagonal. */
  ghost predicate IsEigenSystem(n: nat, A0: Mat, D: Mat, E: Mat, sweeps: nat) {
    && Reached(n, A0, D, E)
    && (forall i, j :: 0 <= i < j < n ==> D(i, i) <= D(j, j))
    && sweeps <= 100 && (sweeps < 100 ==> Off(n, D) < 1e-28)
    && exists A, V, order :: AfterSweeps(n, A0, sweeps, A, V) && IsPermutation(n, order)
                             && D == PickBoth(A, order) && E == PickCols(V, order)
  }

  /** The eigenvalues, ascending, and the matrix whose columns are their eigenvectors. D is A0 in the
      coordinates of those columns; unless all the sweeps were used its energy off the diagonal is
      below the tolerance. */
  method JacobiEigenSymmetric(a: array2<real>, n: nat, sqrt: real -> real, ghost A0: Mat)
    returns (eigenvalues: seq<real>, eigenvectors: array2<real>, ghost D: Mat, ghost E: Mat, ghost sweeps: nat)
    requires IsSqrt(sqrt) && Holds(a, n, A0) && Symmetric(n, A0)
    modifies a
    ensures fresh(eigenvectors)
    ensures Holds(eigenvectors, n, E) && IsEigenSystem(n, A0, D, E, sweeps)
    ensures sweeps <= 100 && (sweeps < 100 ==> Off(n, D) * 10000000000000000000000000000.0 < 1.0)
    ensures |eigenvalues| == n && forall i :: 0 <= i < n ==> eigenvalues[i] == D(i, i)
  {
    hide IsSqrt, Reached, Off, PickCols, PickBoth, SweptTo, AfterSweeps;
    assert AfterSweeps(n, A0, 0, A0, Identity) by { NoSweeps(n, A0); }
    var v := new real[n, n]((i, j) => if i == j then 1.0 else 0.0);
    ghost var A, V := A0, Identity;
    StartReached(n, A0);
    var sweep := 0;
    while sweep < MAX_SWEEPS
      invariant sweep <= MAX_SWEEPS && fresh(v)
      invariant Holds(a, n, A) && Holds(v, n, V) && Reached(n, A0, A, V) && AfterSweeps(n, A0, sweep, A, V)
    {
      var off := MeasureOff(a, n, A);
      if off < 1e-28 {
        break;
      }
      ghost var A', V' := A, V;
      A, V := Sweep(a, v, n, sqrt, A0, A, V);
      OneMoreSweep(n, A0, sweep, A', V', A, V);
      sweep := sweep + 1;
    }
    sweeps := sweep;
    var diagonal := Diagonal(a, n, A);
    var values := diagonal[..];
    var ev := x => if 0 <= x < |values| then values[x] else 0.0;
    var order := SortedOrder(ev, n);
    SortedOrderSorts(ev, n);
    assert forall x :: 0 <= x < n ==> order[x] in order;
    D, E := PickBoth(A, order), PickCols(V, order);
    PickKeepsReached(n, A0, A, V, order);
    eigenvalues := seq(n, c requires 0 <= c < n => values[order[c]]);
    eigenvectors := CopyColumns(v, n, order, V);
    forall c | 0 <= c < n ensures eigenvalues[c] == ev(order[c]) == D(c, c) {
      PickedAt(A, order, c);
    }
  }

  lemma PickedAt(A: Mat, order: seq<int>, c: int)
    requires 0 <= c < |order|
    ensures PickBoth(A, order)(c, c) == A(order[c], order[c])
  {
  }

  // --- What the result means ---------------------------------------------------------

  /** The component k of A0 * E_c - lambda_c * E_c. */
  function Residual(n: nat, A0: Mat, E: Mat, lambda: real, c: int): Vec {
    k => Apply(n, A0, Col(E, c))(k) - lambda * E(k, c)
  }

  /** Each returned column is an eigenvector of the input up to a residual no longer than the energy
      left off the diagonal. */
  lemma ColumnsAreEigenvectors(n: nat, A0: Mat, D: Mat, E: Mat, c: int)
    requires 0 <= c < n && Reached(n, A0, D, E) && Symmetric(n, A0)
    ensures var r := Residual(n, A0, E, D(c, c), c);
            Dot(n, r, r) <= Off(n, D)
  {
    var r := Residual(n, A0, E, D(c, c), c);
    var coords := Coords(n, r, E);
    var f := Mul(coords, coords);
    Parseval(n, E, r, r);
    DotIsSum(n, coords, coords);
    ReachedSymmetric(n, A0, D, E);
    forall j | 0 <= j < n ensures f(j) == if j == c then 0.0 else Sq(D(j, c)) {
      ResidualSquare(n, A0, D, E, c, j);
    }
    hide *;
    ColumnBelowOff(n, D, c, f);
  }

  lemma ResidualSquare(n: nat, A0: Mat, D: Mat, E: Mat, c: int, j: int)
    requires 0 <= c < n && 0 <= j < n && Reached(n, A0, D, E)
    ensures var coords := Coords(n, Residual(n, A0, E, D(c, c), c), E);
            Mul(coords, coords)(j) == if j == c then 0.0 else Sq(D(j, c))
  {
    hide Coords, Reached, Residual;
    ResidualCoordinate(n, A0, D, E, c, j);
    var coords := Coords(n, Residual(n, A0, E, D(c, c), c), E);
    assert Mul(coords, coords)(j) == Sq(coords(j));
    assert coords(j) == if j == c then 0.0 else D(j, c);
  }

  /** Unless all hundred sweeps were used, each returned column is an eigenvector to within a squared length
      of 1e-28. */
  lemma ColumnsAreAccurate(n: nat, A0: Mat, D: Mat, E: Mat, sweeps: nat, c: int)
    requires 0 <= c < n && Symmetric(n, A0) && IsEigenSystem(n, A0, D, E, sweeps) && sweeps < 100
    ensures var r := Residual(n, A0, E, D(c, c), c);
            0.0 <= Dot(n, r, r) < 1e-28
  {
    hide Reached, Residual, Symmetric, AfterSweeps, PickBoth, PickCols;
    var r := Residual(n, A0, E, D(c, c), c);
    ColumnsAreEigenvectors(n, A0, D, E, c);
    hide IsEigenSystem, Off;
    forall k | 0 <= k < n ensures 0.0 <= Mul(r, r)(k) {
      SquareNonneg(r(k));
      assert Mul(r, r)(k) == Sq(r(k));
    }
    var zero := k => 0.0;
    SumZero(n, zero);
    SumLe(n, zero, Mul(r, r));
  }

  lemma DotIsSum(n: nat, u: Vec, w: Vec)
    ensures Dot(n, u, w) == Sum(n, Mul(u, w))
  {
  }

  lemma ReachedSymmetric(n: nat, A0: Mat, D: Mat, E: Mat)
    requires Reached(n, A0, D, E)
    ensures Symmetric(n, D)
  {
  }

  lemma ResidualCoordinate(n: nat, A0: Mat, D: Mat, E: Mat, c: int, j: int)
    requires 0 <= c < n && 0 <= j < n && Reached(n, A0, D, E)
    ensures Coords(n, Residual(n, A0, E, D(c, c), c), E)(j) == D(j, c) - D(c, c) * Identity(j, c)
  {
    hide Sum;
    var r, ae := Residual(n, A0, E, D(c, c), c), Apply(n, A0, Col(E, c));
    forall k | 0 <= k < n ensures r(k) == 1.0 * ae(k) + (-D(c, c)) * Col(E, c)(k) {
      assert r(k) == Apply(n, A0, Col(E, c))(k) - D(c, c) * E(k, c);
    }
    DotLinear(n, 1.0, ae, -D(c, c), Col(E, c), r, Col(E, j));
    DotSymmetric(n, r, Col(E, j));
    assert D(j, c) == Form(n, A0, Col(E, j), Col(E, c)) == Dot(n, Col(E, j), ae);
    assert Dot(n, Col(E, j), Col(E, c)) == Identity(j, c);
    assert Coords(n, r, E)(j) == Dot(n, r, Col(E, j));
  }

  lemma ColumnBelowOff(n: nat, D: Mat, c: int, f: Vec)
    requires 0 <= c < n && Symmetric(n, D)
    requires forall j :: 0 <= j < n ==> f(j) == if j == c then 0.0 else Sq(D(j, c))
    ensures Sum(n, f) <= Off(n, D)
  {
    // Row j of F holds D(j, c) squared for j above c; row c holds the others.
    var F := SquareAbove(D);
    var row := j => F(c, j);
    var above := j => if j < c then Sq(D(j, c)) else 0.0;
    hide Sum, Sq;
    forall j | 0 <= j < n ensures f(j) == above(j) + row(j) {
      assert D(j, c) == D(c, j);
    }
    SumLinear(n, 1.0, above, 1.0, row, f);
    var only := j => if j == c then Sum(n, row) else 0.0;
    var g := j => above(j) + only(j);
    SumOnly(n, only, c);
    SumLinear(n, 1.0, above, 1.0, only, g);
    forall j | 0 <= j < n ensures g(j) <= RowSum(n, F)(j) {
      RowAtLeast(n, D, j, c);
      assert RowSum(n, F)(j) == Sum(n, x => F(j, x));
    }
    SumLe(n, g, RowSum(n, F));
  }

  lemma RowAtLeast(n: nat, D: Mat, j: int, c: int)
    requires 0 <= j < n && 0 <= c < n
    ensures var cells := x => SquareAbove(D)(j, x);
            (if j < c then Sq(D(j, c)) else 0.0) <= Sum(n, cells)
  {
    var F := SquareAbove(D);
    var cells := x => F(j, x);
    var one := x => if x == c then F(j, c) else 0.0;
    hide Sum, Sq;
    SumOnly(n, one, c);
    forall x | 0 <= x < n ensures one(x) <= cells(x) {
      SquareNonneg(D(j, x));
    }
    SumLe(n, one, cells);
    SumCong(n, cells, x => SquareAbove(D)(j, x));
  }
}
