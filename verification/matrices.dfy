/**
 * Dense real matrices and vectors: the small part of a linear-algebra
 * library that the filter recursion calls into (multiply, add, subtract,
 * transpose, identity). A matrix is a sequence of rows; its shape is
 * stated with IsMatrix, and operations whose result shape cannot be read
 * off their arguments take the missing dimension explicitly.
 */
module Matrices {

  type Vector = seq<real>
  type Matrix = seq<seq<real>>

  /** `m` has `rows` rows of `cols` entries each. */
  predicate IsMatrix(m: Matrix, rows: nat, cols: nat) {
    |m| == rows && forall i :: 0 <= i < rows ==> |m[i]| == cols
  }

  function Zeros(n: nat): (v: Vector)
    ensures |v| == n && forall i :: 0 <= i < n ==> v[i] == 0.0
  {
    seq(n, _ => 0.0)
  }

  function ZeroMatrix(rows: nat, cols: nat): (m: Matrix)
    ensures IsMatrix(m, rows, cols)
    ensures forall i, j :: 0 <= i < rows && 0 <= j < cols ==> m[i][j] == 0.0
  {
    seq(rows, _ => Zeros(cols))
  }

  /** The i-th standard basis vector of length n (all zeros when i >= n). */
  function Unit(n: nat, i: nat): (e: Vector)
    ensures |e| == n && forall j :: 0 <= j < n ==> e[j] == if j == i then 1.0 else 0.0
  {
    seq(n, j => if j == i then 1.0 else 0.0)
  }

  function Identity(n: nat): (m: Matrix)
    ensures IsMatrix(m, n, n)
    ensures forall i :: 0 <= i < n ==> m[i] == Unit(n, i)
  {
    seq(n, i requires 0 <= i < n => Unit(n, i))
  }

  /** Inner product, accumulated from the last entry backwards. */
  function Dot(u: Vector, v: Vector): real
    requires |u| == |v|
    decreases |u|
  {
    if |u| == 0 then 0.0 else
      var n := |u| - 1;
      Dot(u[..n], v[..n]) + u[n] * v[n]
  }

  function VecAdd(u: Vector, v: Vector): (w: Vector)
    requires |u| == |v|
    ensures |w| == |u| && forall i :: 0 <= i < |u| ==> w[i] == u[i] + v[i]
  {
    seq(|u|, i requires 0 <= i < |u| => u[i] + v[i])
  }

  function VecSub(u: Vector, v: Vector): (w: Vector)
    requires |u| == |v|
    ensures |w| == |u| && forall i :: 0 <= i < |u| ==> w[i] == u[i] - v[i]
  {
    seq(|u|, i requires 0 <= i < |u| => u[i] - v[i])
  }

  function VecScale(c: real, u: Vector): (w: Vector)
    ensures |w| == |u| && forall i :: 0 <= i < |u| ==> w[i] == c * u[i]
  {
    seq(|u|, i requires 0 <= i < |u| => c * u[i])
  }

  /** Column j of m. */
  function Column(m: Matrix, j: nat): (c: Vector)
    requires forall i :: 0 <= i < |m| ==> j < |m[i]|
    ensures |c| == |m| && forall i :: 0 <= i < |m| ==> c[i] == m[i][j]
  {
    seq(|m|, i requires 0 <= i < |m| => m[i][j])
  }

  /** Matrix times column vector. */
  function MatVec(m: Matrix, v: Vector): (w: Vector)
    requires IsMatrix(m, |m|, |v|)
    ensures |w| == |m| && forall i :: 0 <= i < |m| ==> w[i] == Dot(m[i], v)
  {
    seq(|m|, i requires 0 <= i < |m| => Dot(m[i], v))
  }

  /** Row vector times matrix with n columns. */
  function VecMat(v: Vector, m: Matrix, n: nat): (w: Vector)
    requires IsMatrix(m, |v|, n)
    ensures |w| == n && forall j :: 0 <= j < n ==> w[j] == Dot(v, Column(m, j))
  {
    seq(n, j requires 0 <= j < n => Dot(v, Column(m, j)))
  }

  /** Product of a (|a| x |b|) and b (|b| x n). */
  function Mul(a: Matrix, b: Matrix, n: nat): (c: Matrix)
    requires IsMatrix(a, |a|, |b|) && IsMatrix(b, |b|, n)
    ensures IsMatrix(c, |a|, n)
    ensures forall i :: 0 <= i < |a| ==> c[i] == VecMat(a[i], b, n)
  {
    seq(|a|, i requires 0 <= i < |a| => VecMat(a[i], b, n))
  }

  /** Transpose of m, which has n columns. */
  function Transpose(m: Matrix, n: nat): (t: Matrix)
    requires IsMatrix(m, |m|, n)
    ensures IsMatrix(t, n, |m|)
    ensures forall j :: 0 <= j < n ==> t[j] == Column(m, j)
  {
    seq(n, j requires 0 <= j < n => Column(m, j))
  }

  function Add(a: Matrix, b: Matrix): (c: Matrix)
    requires |a| == |b| && forall i :: 0 <= i < |a| ==> |a[i]| == |b[i]|
    ensures |c| == |a| && forall i :: 0 <= i < |a| ==> c[i] == VecAdd(a[i], b[i])
  {
    seq(|a|, i requires 0 <= i < |a| => VecAdd(a[i], b[i]))
  }

  function Sub(a: Matrix, b: Matrix): (c: Matrix)
    requires |a| == |b| && forall i :: 0 <= i < |a| ==> |a[i]| == |b[i]|
    ensures |c| == |a| && forall i :: 0 <= i < |a| ==> c[i] == VecSub(a[i], b[i])
  {
    seq(|a|, i requires 0 <= i < |a| => VecSub(a[i], b[i]))
  }

  /** Two matrices of one shape are equal when all their entries are. */
  lemma {:induction false} MatrixExt(a: Matrix, b: Matrix, rows: nat, cols: nat)
    requires IsMatrix(a, rows, cols) && IsMatrix(b, rows, cols)
    requires forall i, j :: 0 <= i < rows && 0 <= j < cols ==> a[i][j] == b[i][j]
    ensures a == b
  {
    forall i | 0 <= i < rows ensures a[i] == b[i] {
      assert forall j :: 0 <= j < cols ==> a[i][j] == b[i][j];
    }
  }

  // ---------------------------------------------------------------------
  // Laws of the inner product
  // ---------------------------------------------------------------------

  /** One step of the inner product's definition, stated on its own so
      that callers need not unfold Dot among many other product terms. */
  lemma {:induction false} DotLast(u: Vector, v: Vector)
    requires |u| == |v| > 0
    ensures Dot(u, v) == Dot(u[..|u| - 1], v[..|u| - 1]) + u[|u| - 1] * v[|u| - 1]
  {
  }

  /** DotLast with the last entry of v passed as y. */
  lemma {:induction false} DotLastIs(u: Vector, v: Vector, y: real)
    requires |u| == |v| > 0 && y == v[|u| - 1]
    ensures Dot(u, v) == Dot(u[..|u| - 1], v[..|u| - 1]) + u[|u| - 1] * y
  {
    DotLast(u, v);
  }

  lemma {:induction false} DotComm(u: Vector, v: Vector)
    requires |u| == |v|
    ensures Dot(u, v) == Dot(v, u)
    decreases |u|
  {
    if |u| > 0 {
      var n := |u| - 1;
      DotComm(u[..n], v[..n]);
    }
  }

  lemma {:induction false} DotAddLeft(u: Vector, w: Vector, c: Vector)
    requires |u| == |w| == |c|
    ensures Dot(VecAdd(u, w), c) == Dot(u, c) + Dot(w, c)
    decreases |u|
  {
    if |u| > 0 {
      var n := |u| - 1;
      var s := VecAdd(u, w);
      assert s[..n] == VecAdd(u[..n], w[..n]);
      DotAddLeft(u[..n], w[..n], c[..n]);
      DotLast(s, c);
      DotLast(u, c);
      DotLast(w, c);
      AddTimes(u[n], w[n], s[n], c[n]);
    }
  }

  /** (x + y)·z == x·z + y·z, with x + y passed as s. */
  lemma AddTimes(x: real, y: real, s: real, z: real)
    requires s == x + y
    ensures s * z == x * z + y * z
  {
  }

  /** Scaling the left vector by a scales the inner product, whose value
      is passed as d. */
  lemma {:induction false} DotScaleLeft(a: real, u: Vector, c: Vector, d: real)
    requires |u| == |c| && d == Dot(u, c)
    ensures Dot(VecScale(a, u), c) == a * d
    decreases |u|
  {
    var k := |u|;
    if k > 0 {
      var n := k - 1;
      var front, scaled := VecScale(a, u)[..n], VecScale(a, u[..n]);
      assert forall i :: 0 <= i < n ==> front[i] == scaled[i];
      assert front == scaled;
      var d' := Dot(u[..n], c[..n]);
      DotScaleLeft(a, u[..n], c[..n], d');
      ScaleSum(a, d, d', u[n], c[n], VecScale(a, u)[n]);
    }
  }

  /** Distributing a over d == d' + x·y, with a·x passed as w. */
  lemma ScaleSum(a: real, d: real, d': real, x: real, y: real, w: real)
    requires d == d' + x * y && w == a * x
    ensures a * d == a * d' + w * y
  {
  }

  /** The zero vector annihilates any vector. */
  lemma {:induction false} DotZeroRight(u: Vector)
    ensures Dot(u, Zeros(|u|)) == 0.0
    decreases |u|
  {
    if |u| > 0 {
      var n := |u| - 1;
      assert Zeros(|u|)[..n] == Zeros(n);
      DotZeroRight(u[..n]);
    }
  }

  /** The inner product with a basis vector selects one entry. */
  lemma {:induction false} DotUnitLeft(n: nat, i: nat, v: Vector)
    requires |v| == n
    ensures Dot(Unit(n, i), v) == if i < n then v[i] else 0.0
    decreases n
  {
    if n > 0 {
      assert Unit(n, i)[..n - 1] == Unit(n - 1, i);
      DotUnitLeft(n - 1, i, v[..n - 1]);
    }
  }

  // ---------------------------------------------------------------------
  // Laws of the matrix product
  // ---------------------------------------------------------------------

  /** Matrix-vector product with the zero vector is the zero vector. */
  lemma {:induction false} MatVecZero(m: Matrix, n: nat)
    requires IsMatrix(m, |m|, n)
    ensures MatVec(m, Zeros(n)) == Zeros(|m|)
  {
    forall i | 0 <= i < |m| ensures MatVec(m, Zeros(n))[i] == 0.0 {
      DotZeroRight(m[i]);
    }
  }

  /** A zero left factor gives a zero product. */
  lemma {:induction false} ZeroMulLeft(rows: nat, b: Matrix, n: nat)
    requires IsMatrix(b, |b|, n)
    ensures Mul(ZeroMatrix(rows, |b|), b, n) == ZeroMatrix(rows, n)
  {
    var z := ZeroMatrix(rows, |b|);
    forall i, j | 0 <= i < rows && 0 <= j < n
      ensures Mul(z, b, n)[i][j] == 0.0
    {
      assert z[i] == Zeros(|b|);
      DotComm(z[i], Column(b, j));
      DotZeroRight(Column(b, j));
    }
    MatrixExt(Mul(z, b, n), ZeroMatrix(rows, n), rows, n);
  }

  /** Splitting off the last row of b and the last entry of a. */
  lemma {:induction false} VecMatLast(a: Vector, b: Matrix, n: nat)
    requires |a| > 0 && IsMatrix(b, |a|, n)
    ensures VecMat(a, b, n)
         == VecAdd(VecMat(a[..|a| - 1], b[..|a| - 1], n), VecScale(a[|a| - 1], b[|a| - 1]))
  {
    var k := |a|;
    var a', b' := a[..k - 1], b[..k - 1];
    forall j | 0 <= j < n
      ensures VecMat(a, b, n)[j] == VecAdd(VecMat(a', b', n), VecScale(a[k - 1], b[k - 1]))[j]
    {
      assert Column(b, j)[..k - 1] == Column(b', j);
    }
  }

  /** Splitting off the last entry of a on the left side of VecMatDot. */
  lemma {:induction false} VecMatDotSplit(a: Vector, b: Matrix, c: Vector)
    requires |a| > 0 && IsMatrix(b, |a|, |c|)
    ensures Dot(VecMat(a, b, |c|), c)
         == Dot(VecMat(a[..|a| - 1], b[..|a| - 1], |c|), c) + Dot(VecScale(a[|a| - 1], b[|a| - 1]), c)
  {
    VecMatLast(a, b, |c|);
    DotAddLeft(VecMat(a[..|a| - 1], b[..|a| - 1], |c|), VecScale(a[|a| - 1], b[|a| - 1]), c);
  }

  /** The left side of VecMatDot with the last entry of a split off. */
  lemma {:induction false} VecMatDotLast(a: Vector, b: Matrix, c: Vector)
    requires |a| > 0 && IsMatrix(b, |a|, |c|)
    ensures Dot(VecMat(a, b, |c|), c)
         == Dot(VecMat(a[..|a| - 1], b[..|a| - 1], |c|), c) + a[|a| - 1] * Dot(b[|a| - 1], c)
  {
    VecMatDotSplit(a, b, c);
    DotScaleLeft(a[|a| - 1], b[|a| - 1], c, Dot(b[|a| - 1], c));
  }

  /** The right side of VecMatDot with the last entry of a split off. */
  lemma {:induction false} DotMatVecLast(a: Vector, b: Matrix, c: Vector)
    requires |a| > 0 && IsMatrix(b, |a|, |c|)
    ensures Dot(a, MatVec(b, c))
         == Dot(a[..|a| - 1], MatVec(b[..|a| - 1], c)) + a[|a| - 1] * Dot(b[|a| - 1], c)
  {
    var bc := MatVec(b, c);
    assert bc[..|a| - 1] == MatVec(b[..|a| - 1], c);
    DotLastIs(a, bc, Dot(b[|a| - 1], c));
  }

  /** Moving a vector across a matrix: (a·B)·c == a·(B·c). */
  lemma {:induction false} VecMatDot(a: Vector, b: Matrix, c: Vector)
    requires IsMatrix(b, |a|, |c|)
    ensures Dot(VecMat(a, b, |c|), c) == Dot(a, MatVec(b, c))
    decreases |a|
  {
    var k, n := |a|, |c|;
    if k == 0 {
      assert VecMat(a, b, n) == Zeros(n);
      DotComm(Zeros(n), c);
      DotZeroRight(c);
    } else {
      VecMatDotLast(a, b, c);
      DotMatVecLast(a, b, c);
      VecMatDot(a[..k - 1], b[..k - 1], c);
    }
  }

  /** The column of a product is the left factor applied to the column. */
  lemma {:induction false} ColumnOfMul(b: Matrix, c: Matrix, n: nat, j: nat)
    requires IsMatrix(b, |b|, |c|) && IsMatrix(c, |c|, n) && j < n
    ensures Column(Mul(b, c, n), j) == MatVec(b, Column(c, j))
  {
  }

  lemma {:induction false} MulAssoc(a: Matrix, b: Matrix, c: Matrix, n: nat)
    requires IsMatrix(a, |a|, |b|) && IsMatrix(b, |b|, |c|) && IsMatrix(c, |c|, n)
    ensures Mul(Mul(a, b, |c|), c, n) == Mul(a, Mul(b, c, n), n)
  {
    var lhs, rhs := Mul(Mul(a, b, |c|), c, n), Mul(a, Mul(b, c, n), n);
    forall i, j | 0 <= i < |a| && 0 <= j < n
      ensures lhs[i][j] == rhs[i][j]
    {
      ColumnOfMul(b, c, n, j);
      VecMatDot(a[i], b, Column(c, j));
    }
    MatrixExt(lhs, rhs, |a|, n);
  }

  lemma {:induction false} MulIdentityLeft(a: Matrix, n: nat)
    requires IsMatrix(a, |a|, n)
    ensures Mul(Identity(|a|), a, n) == a
  {
    var m := |a|;
    forall i, j | 0 <= i < m && 0 <= j < n
      ensures Mul(Identity(m), a, n)[i][j] == a[i][j]
    {
      DotUnitLeft(m, i, Column(a, j));
    }
    MatrixExt(Mul(Identity(m), a, n), a, m, n);
  }

  lemma {:induction false} MulIdentityRight(a: Matrix, n: nat)
    requires IsMatrix(a, |a|, n)
    ensures Mul(a, Identity(n), n) == a
  {
    forall i, j | 0 <= i < |a| && 0 <= j < n
      ensures Mul(a, Identity(n), n)[i][j] == a[i][j]
    {
      assert Column(Identity(n), j) == Unit(n, j);
      DotComm(a[i], Unit(n, j));
      DotUnitLeft(n, j, a[i]);
    }
    MatrixExt(Mul(a, Identity(n), n), a, |a|, n);
  }

  // ---------------------------------------------------------------------
  // 1 x 1 matrices
  // ---------------------------------------------------------------------

  // The products below are passed in as c rather than written inside the
  // sequence displays: the solver does not reliably identify a product
  // nested in a display with the same product elsewhere.

  /** On 1 x 1 matrices and length-1 vectors every operation is scalar arithmetic. */
  lemma ScalarMul(a: real, b: real, c: real)
    requires c == a * b
    ensures Mul([[a]], [[b]], 1) == [[c]]
  {
    assert Dot([a], [b]) == c by {
      assert [a][..0] == [];
    }
    assert Column([[b]], 0) == [b];
    assert VecMat([a], [[b]], 1) == [c];
  }

  lemma ScalarMatVec(a: real, b: real, c: real)
    requires c == a * b
    ensures MatVec([[a]], [b]) == [c]
  {
    assert Dot([a], [b]) == c by {
      assert [a][..0] == [];
    }
  }

  lemma ScalarTranspose(a: real)
    ensures Transpose([[a]], 1) == [[a]]
  {
    assert Column([[a]], 0) == [a];
  }

  lemma ScalarAdd(a: real, b: real, c: real)
    requires c == a + b
    ensures Add([[a]], [[b]]) == [[c]] && VecAdd([a], [b]) == [c]
  {
    assert VecAdd([a], [b]) == [c];
  }

  lemma ScalarSub(a: real, b: real, c: real)
    requires c == a - b
    ensures Sub([[a]], [[b]]) == [[c]] && VecSub([a], [b]) == [c]
  {
    assert VecSub([a], [b]) == [c];
  }
}
