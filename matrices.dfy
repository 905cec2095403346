/**
  Dense real vectors and matrices, and the products the allocation pipeline takes
  from numpy (`dot`, `.T`, `np.diag`, `np.reshape`, scalar and entrywise arithmetic),
  stated exactly in real arithmetic. A matrix is its sequence of rows; an N x 1
  column (numpy's shape for returns and weights) is a `Vector` of length N.
*/
module Matrices {

  type Vector = seq<real>
  type Matrix = seq<seq<real>>

  /** `m` has `rows` rows of `cols` entries each. */
  predicate IsMatrix(m: Matrix, rows: nat, cols: nat) {
    |m| == rows && forall i :: 0 <= i < rows ==> |m[i]| == cols
  }

  predicate IsSquare(m: Matrix) {
    IsMatrix(m, |m|, |m|)
  }

  predicate SameShape(a: Matrix, b: Matrix) {
    |a| == |b| && forall i :: 0 <= i < |a| ==> |a[i]| == |b[i]|
  }

  // ---------------------------------------------------------------- vectors

  function Zeros(n: nat): (v: Vector)
    ensures |v| == n
  {
    seq(n, _ => 0.0)
  }

  /** The i-th unit vector of length n (row i of the identity). */
  function Unit(n: nat, i: nat): (v: Vector)
    ensures |v| == n
  {
    seq(n, j => if j == i then 1.0 else 0.0)
  }

  function Dot(u: Vector, v: Vector): real
    requires |u| == |v|
  {
    if |u| == 0 then 0.0 else u[0] * v[0] + Dot(u[1..], v[1..])
  }

  /** Python's built-in `sum`, folded from the front. */
  function Sum(v: Vector): real
  {
    if |v| == 0 then 0.0 else v[0] + Sum(v[1..])
  }

  function ScaleV(c: real, v: Vector): (r: Vector)
    ensures |r| == |v|
  {
    seq(|v|, i requires 0 <= i < |v| => c * v[i])
  }

  function AddV(u: Vector, v: Vector): (r: Vector)
    requires |u| == |v|
    ensures |r| == |u|
  {
    seq(|u|, i requires 0 <= i < |u| => u[i] + v[i])
  }

  function SubV(u: Vector, v: Vector): (r: Vector)
    requires |u| == |v|
    ensures |r| == |u|
  {
    seq(|u|, i requires 0 <= i < |u| => u[i] - v[i])
  }

  /** Every entry divided by `d` (numpy's `v / d` for a scalar `d`). */
  function DivV(v: Vector, d: real): (r: Vector)
    requires d != 0.0
    ensures |r| == |v|
  {
    seq(|v|, i requires 0 <= i < |v| => v[i] / d)
  }

  // --------------------------------------------------------------- matrices

  function ZeroMatrix(rows: nat, cols: nat): (m: Matrix)
    ensures IsMatrix(m, rows, cols)
  {
    seq(rows, _ => Zeros(cols))
  }

  function Identity(n: nat): (m: Matrix)
    ensures IsMatrix(m, n, n)
  {
    seq(n, i requires 0 <= i < n => Unit(n, i))
  }

  function Column(m: Matrix, j: nat): (col: Vector)
    requires forall i :: 0 <= i < |m| ==> j < |m[i]|
    ensures |col| == |m|
  {
    seq(|m|, i requires 0 <= i < |m| => m[i][j])
  }

  /** numpy's `m.T` for a matrix with `cols` columns. */
  function Transpose(m: Matrix, cols: nat): (t: Matrix)
    requires IsMatrix(m, |m|, cols)
    ensures IsMatrix(t, cols, |m|)
  {
    seq(cols, j requires 0 <= j < cols => Column(m, j))
  }

  /** Matrix times column vector. */
  function MatVec(m: Matrix, v: Vector): (r: Vector)
    requires IsMatrix(m, |m|, |v|)
    ensures |r| == |m|
  {
    seq(|m|, i requires 0 <= i < |m| => Dot(m[i], v))
  }

  /** Row vector times matrix (a matrix with `cols` columns). */
  function VecMat(a: Vector, m: Matrix, cols: nat): (r: Vector)
    requires |a| == |m| && IsMatrix(m, |m|, cols)
    ensures |r| == cols
  {
    seq(cols, j requires 0 <= j < cols => Dot(a, Column(m, j)))
  }

  /** Matrix product `a.dot(b)`, where `b` has `cols` columns. */
  function Mul(a: Matrix, b: Matrix, cols: nat): (c: Matrix)
    requires IsMatrix(a, |a|, |b|) && IsMatrix(b, |b|, cols)
    ensures IsMatrix(c, |a|, cols)
  {
    seq(|a|, i requires 0 <= i < |a| => VecMat(a[i], b, cols))
  }

  function ScaleM(c: real, m: Matrix): (r: Matrix)
    ensures SameShape(r, m)
  {
    seq(|m|, i requires 0 <= i < |m| => ScaleV(c, m[i]))
  }

  function AddM(a: Matrix, b: Matrix): (r: Matrix)
    requires SameShape(a, b)
    ensures SameShape(r, a)
  {
    seq(|a|, i requires 0 <= i < |a| => AddV(a[i], b[i]))
  }

  function SubM(a: Matrix, b: Matrix): (r: Matrix)
    requires SameShape(a, b)
    ensures SameShape(r, a)
  {
    seq(|a|, i requires 0 <= i < |a| => SubV(a[i], b[i]))
  }

  predicate IsDiagonal(m: Matrix)
    requires IsSquare(m)
  {
    forall i, j :: 0 <= i < |m| && 0 <= j < |m| && i != j ==> m[i][j] == 0.0
  }

  /** numpy's `np.diag(np.diag(m))`: keep the main diagonal, zero the rest. */
  function DiagonalPart(m: Matrix): (d: Matrix)
    requires IsSquare(m)
    ensures IsMatrix(d, |m|, |m|) && IsDiagonal(d)
    ensures forall i :: 0 <= i < |m| ==> d[i][i] == m[i][i]
  {
    seq(|m|, i requires 0 <= i < |m| =>
      seq(|m|, j requires 0 <= j < |m| => if i == j then m[i][i] else 0.0))
  }

  /** All rows have the same length, as in any array numpy can build from nested lists. */
  predicate Rectangular(m: Matrix)
  {
    forall i :: 0 <= i < |m| ==> |m[i]| == |m[0]|
  }

  /** The entries of `m` in row-major order (what `np.reshape` reads). */
  function Flatten(m: Matrix): Vector
  {
    if |m| == 0 then [] else m[0] + Flatten(m[1..])
  }

  /** numpy's `np.reshape(flat, (rows, cols))` in row-major order. */
  function Reshape(flat: Vector, rows: nat, cols: nat): (m: Matrix)
    requires |flat| == rows * cols
    ensures IsMatrix(m, rows, cols)
  {
    if rows == 0 then []
    else
      ShorterByOneRow(rows, cols);
      [flat[..cols]] + Reshape(flat[cols..], rows - 1, cols)
  }

  /** `x` is a two-sided inverse of the square matrix `m`. */
  predicate IsInverse(m: Matrix, x: Matrix)
  {
    && IsSquare(m)
    && IsMatrix(x, |m|, |m|)
    && Mul(m, x, |m|) == Identity(|m|)
    && Mul(x, m, |m|) == Identity(|m|)
  }

  /** `m` has a two-sided inverse. */
  ghost predicate Nonsingular(m: Matrix)
  {
    exists x :: IsInverse(m, x)
  }

  /** The quadratic form p' m p. */
  function Quad(m: Matrix, p: Vector): real
    requires IsMatrix(m, |p|, |p|)
  {
    Dot(p, MatVec(m, p))
  }

  ghost predicate PositiveSemidefinite(m: Matrix)
  {
    IsSquare(m) && forall p :: |p| == |m| ==> Quad(m, p) >= 0.0
  }

  // ------------------------------------------------------ lemmas on vectors

  lemma {:induction false} DotZeroLeft(u: Vector, v: Vector)
    requires |u| == |v|
    requires forall k :: 0 <= k < |u| ==> u[k] == 0.0
    ensures Dot(u, v) == 0.0
  {
    if |u| > 0 {
      DotZeroLeft(u[1..], v[1..]);
    }
  }

  lemma {:induction false} DotComm(u: Vector, v: Vector)
    requires |u| == |v|
    ensures Dot(u, v) == Dot(v, u)
  {
    if |u| > 0 {
      DotComm(u[1..], v[1..]);
    }
  }

  lemma DotZeroRight(u: Vector, v: Vector)
    requires |u| == |v|
    requires forall k :: 0 <= k < |v| ==> v[k] == 0.0
    ensures Dot(u, v) == 0.0
  {
    DotComm(u, v);
    DotZeroLeft(v, u);
  }

  /** A vector with a single non-zero entry picks out one entry of the other. */
  lemma {:induction false} DotSingle(u: Vector, v: Vector, i: nat)
    requires |u| == |v| && i < |u|
    requires forall k :: 0 <= k < |u| && k != i ==> u[k] == 0.0
    ensures Dot(u, v) == u[i] * v[i]
  {
    if i == 0 {
      DotZeroLeft(u[1..], v[1..]);
    } else {
      DotSingle(u[1..], v[1..], i - 1);
    }
  }

  lemma DotUnit(n: nat, i: nat, v: Vector)
    requires i < n == |v|
    ensures Dot(Unit(n, i), v) == v[i]
    ensures Dot(v, Unit(n, i)) == v[i]
  {
    DotSingle(Unit(n, i), v, i);
    DotComm(Unit(n, i), v);
  }

  lemma ScaleTail(c: real, v: Vector)
    requires |v| > 0
    ensures ScaleV(c, v)[1..] == ScaleV(c, v[1..])
  {
    forall k | 0 <= k < |v| - 1
      ensures ScaleV(c, v)[1..][k] == ScaleV(c, v[1..])[k]
    {
      assert ScaleV(c, v)[1..][k] == ScaleV(c, v)[k + 1] == c * v[k + 1];
      assert v[1..][k] == v[k + 1];
    }
  }

  lemma {:induction false} DotScaleLeft(c: real, u: Vector, v: Vector)
    requires |u| == |v|
    ensures Dot(ScaleV(c, u), v) == c * Dot(u, v)
  {
    if |u| > 0 {
      ScaleTail(c, u);
      DotScaleLeft(c, u[1..], v[1..]);
      var rest := Dot(u[1..], v[1..]);
      assert Dot(ScaleV(c, u), v) == (c * u[0]) * v[0] + c * rest;
      assert (c * u[0]) * v[0] + c * rest == c * (u[0] * v[0] + rest);
    }
  }

  lemma {:induction false} DotScaleRight(c: real, u: Vector, v: Vector)
    requires |u| == |v|
    ensures Dot(u, ScaleV(c, v)) == c * Dot(u, v)
  {
    var sv := ScaleV(c, v);
    DotComm(u, sv);
    DotScaleLeft(c, v, u);
    DotComm(u, v);
    assert Dot(u, sv) == Dot(sv, u) == c * Dot(v, u);
  }

  lemma {:induction false} DotAddLeft(u: Vector, w: Vector, v: Vector)
    requires |u| == |w| == |v|
    ensures Dot(AddV(u, w), v) == Dot(u, v) + Dot(w, v)
  {
    if |u| > 0 {
      assert AddV(u, w)[1..] == AddV(u[1..], w[1..]);
      DotAddLeft(u[1..], w[1..], v[1..]);
    }
  }

  lemma DotAddRight(u: Vector, v: Vector, w: Vector)
    requires |u| == |v| == |w|
    ensures Dot(u, AddV(v, w)) == Dot(u, v) + Dot(u, w)
  {
    DotComm(u, AddV(v, w));
    DotAddLeft(v, w, u);
    DotComm(u, v);
    DotComm(u, w);
  }

  lemma {:induction false} DotSubLeft(u: Vector, w: Vector, v: Vector)
    requires |u| == |w| == |v|
    ensures Dot(SubV(u, w), v) == Dot(u, v) - Dot(w, v)
  {
    if |u| > 0 {
      assert SubV(u, w)[1..] == SubV(u[1..], w[1..]);
      DotSubLeft(u[1..], w[1..], v[1..]);
    }
  }

  lemma DotSubRight(u: Vector, v: Vector, w: Vector)
    requires |u| == |v| == |w|
    ensures Dot(u, SubV(v, w)) == Dot(u, v) - Dot(u, w)
  {
    DotComm(u, SubV(v, w));
    DotSubLeft(v, w, u);
    DotComm(u, v);
    DotComm(u, w);
  }

  lemma {:induction false} SumAppend(s: Vector, x: real)
    ensures Sum(s + [x]) == Sum(s) + x
  {
    if |s| > 0 {
      assert (s + [x])[1..] == s[1..] + [x];
      SumAppend(s[1..], x);
    }
  }

  lemma {:induction false} SumDiv(v: Vector, d: real)
    requires d != 0.0
    ensures Sum(DivV(v, d)) == Sum(v) / d
  {
    if |v| > 0 {
      assert DivV(v, d)[1..] == DivV(v[1..], d);
      SumDiv(v[1..], d);
      DivAdd(v[0], Sum(v[1..]), d);
    }
  }

  lemma DivAdd(x: real, y: real, d: real)
    requires d != 0.0
    ensures x / d + y / d == (x + y) / d
  {
    var a, b := x / d, y / d;
    assert a * d == x && b * d == y;
    assert (a + b) * d == x + y;
  }

  lemma {:induction false} SumScale(c: real, v: Vector)
    ensures Sum(ScaleV(c, v)) == c * Sum(v)
  {
    if |v| > 0 {
      ScaleTail(c, v);
      SumScale(c, v[1..]);
      assert c * v[0] + c * Sum(v[1..]) == c * (v[0] + Sum(v[1..]));
    }
  }

  // ----------------------------------------------------- lemmas on matrices

  /**
    Reassociating a row vector, a matrix and a column vector:
    a (X v) == (a X) v. Every associativity fact below rests on it.
  */
  lemma {:induction false} DotMatVec(a: Vector, x: Matrix, v: Vector)
    requires |a| == |x| && IsMatrix(x, |x|, |v|)
    ensures Dot(a, MatVec(x, v)) == Dot(VecMat(a, x, |v|), v)
  {
    var c := |v|;
    if |a| == 0 {
      DotZeroLeft(VecMat(a, x, c), v);
    } else {
      var head := ScaleV(a[0], x[0]);
      var rest := VecMat(a[1..], x[1..], c);
      var mv := MatVec(x, v);
      assert Dot(a, mv) == a[0] * Dot(x[0], v) + Dot(a[1..], MatVec(x[1..], v)) by {
        assert mv[0] == Dot(x[0], v);
        assert mv[1..] == MatVec(x[1..], v);
      }
      assert Dot(VecMat(a, x, c), v) == a[0] * Dot(x[0], v) + Dot(rest, v) by {
        VecMatFirstRow(a, x, c);
        DotAddLeft(head, rest, v);
        DotScaleLeft(a[0], x[0], v);
      }
      DotMatVec(a[1..], x[1..], v);
    }
  }

  /** Peeling the first row off a row-vector-times-matrix product. */
  lemma VecMatFirstRow(a: Vector, x: Matrix, c: nat)
    requires |a| == |x| > 0 && IsMatrix(x, |x|, c)
    ensures VecMat(a, x, c) == AddV(ScaleV(a[0], x[0]), VecMat(a[1..], x[1..], c))
  {
    var rest := VecMat(a[1..], x[1..], c);
    forall j | 0 <= j < c
      ensures VecMat(a, x, c)[j] == AddV(ScaleV(a[0], x[0]), rest)[j]
    {
      var col := Column(x, j);
      assert col[0] == x[0][j];
      assert col[1..] == Column(x[1..], j);
      assert Dot(a, col) == a[0] * col[0] + Dot(a[1..], col[1..]);
    }
  }

  lemma MatVecMul(a: Matrix, x: Matrix, v: Vector)
    requires IsMatrix(a, |a|, |x|) && IsMatrix(x, |x|, |v|)
    ensures MatVec(a, MatVec(x, v)) == MatVec(Mul(a, x, |v|), v)
  {
    forall i | 0 <= i < |a|
      ensures MatVec(a, MatVec(x, v))[i] == MatVec(Mul(a, x, |v|), v)[i]
    {
      DotMatVec(a[i], x, v);
    }
  }

  lemma ColumnOfMul(b: Matrix, c: Matrix, cols: nat, j: nat)
    requires IsMatrix(b, |b|, |c|) && IsMatrix(c, |c|, cols) && j < cols
    ensures Column(Mul(b, c, cols), j) == MatVec(b, Column(c, j))
  {
  }

  lemma MulAssoc(a: Matrix, b: Matrix, c: Matrix, cols: nat)
    requires IsMatrix(a, |a|, |b|) && IsMatrix(b, |b|, |c|) && IsMatrix(c, |c|, cols)
    ensures Mul(Mul(a, b, |c|), c, cols) == Mul(a, Mul(b, c, cols), cols)
  {
    var left := Mul(Mul(a, b, |c|), c, cols);
    var right := Mul(a, Mul(b, c, cols), cols);
    forall i | 0 <= i < |a|
      ensures left[i] == right[i]
    {
      forall j | 0 <= j < cols
        ensures left[i][j] == right[i][j]
      {
        ColumnOfMul(b, c, cols, j);
        DotMatVec(a[i], b, Column(c, j));
      }
    }
  }

  lemma MatVecIdentity(v: Vector)
    ensures MatVec(Identity(|v|), v) == v
  {
    forall i | 0 <= i < |v|
      ensures MatVec(Identity(|v|), v)[i] == v[i]
    {
      DotUnit(|v|, i, v);
    }
  }

  lemma MulIdentityLeft(x: Matrix, cols: nat)
    requires IsMatrix(x, |x|, cols)
    ensures Mul(Identity(|x|), x, cols) == x
  {
    var n := |x|;
    forall i | 0 <= i < n
      ensures Mul(Identity(n), x, cols)[i] == x[i]
    {
      forall j | 0 <= j < cols
        ensures Mul(Identity(n), x, cols)[i][j] == x[i][j]
      {
        DotUnit(n, i, Column(x, j));
      }
    }
  }

  lemma MulIdentityRight(x: Matrix, n: nat)
    requires IsMatrix(x, |x|, n)
    ensures Mul(x, Identity(n), n) == x
  {
    forall i | 0 <= i < |x|
      ensures Mul(x, Identity(n), n)[i] == x[i]
    {
      forall j | 0 <= j < n
        ensures Mul(x, Identity(n), n)[i][j] == x[i][j]
      {
        assert Column(Identity(n), j) == Unit(n, j);
        DotUnit(n, j, x[i]);
      }
    }
  }

  /** A matrix has at most one two-sided inverse. */
  lemma InverseUnique(m: Matrix, x: Matrix, y: Matrix)
    requires IsInverse(m, x) && IsInverse(m, y)
    ensures x == y
  {
    var n := |m|;
    calc {
      x;
      { MulIdentityRight(x, n); }
      Mul(x, Identity(n), n);
      Mul(x, Mul(m, y, n), n);
      { MulAssoc(x, m, y, n); }
      Mul(Mul(x, m, n), y, n);
      Mul(Identity(n), y, n);
      { MulIdentityLeft(y, n); }
      y;
    }
  }

  /** Undoing an inverse: m (x v) == v when x inverts m. */
  lemma InverseCancels(m: Matrix, x: Matrix, v: Vector)
    requires IsInverse(m, x) && |v| == |m|
    ensures MatVec(m, MatVec(x, v)) == v
    ensures MatVec(x, MatVec(m, v)) == v
  {
    MatVecMul(m, x, v);
    MatVecMul(x, m, v);
    MatVecIdentity(v);
  }

  lemma MatVecZeros(m: Matrix, n: nat)
    requires IsMatrix(m, |m|, n)
    ensures MatVec(m, Zeros(n)) == Zeros(|m|)
  {
    forall i | 0 <= i < |m|
      ensures MatVec(m, Zeros(n))[i] == 0.0
    {
      DotZeroRight(m[i], Zeros(n));
    }
  }

  lemma AddZeroMatrix(m: Matrix, rows: nat, cols: nat)
    requires IsMatrix(m, rows, cols)
    ensures AddM(m, ZeroMatrix(rows, cols)) == m
  {
    forall i | 0 <= i < rows
      ensures AddM(m, ZeroMatrix(rows, cols))[i] == m[i]
    {
      assert AddV(m[i], Zeros(cols)) == m[i];
    }
  }

  /** A product through an empty inner dimension is the zero matrix. */
  lemma MulEmptyInner(a: Matrix, b: Matrix, cols: nat)
    requires IsMatrix(a, |a|, 0) && IsMatrix(b, 0, cols)
    ensures Mul(a, b, cols) == ZeroMatrix(|a|, cols)
  {
    forall i | 0 <= i < |a|
      ensures Mul(a, b, cols)[i] == Zeros(cols)
    {
      assert a[i] == [];
    }
  }

  lemma DivIsScale(v: Vector, d: real)
    requires d != 0.0
    ensures DivV(v, d) == ScaleV(1.0 / d, v)
  {
    forall i | 0 <= i < |v|
      ensures DivV(v, d)[i] == ScaleV(1.0 / d, v)[i]
    {
      DivAsProduct(v[i], d);
    }
  }

  lemma DivAsProduct(x: real, d: real)
    requires d != 0.0
    ensures x / d == (1.0 / d) * x
  {
  }

  lemma MatVecAdd(m: Matrix, u: Vector, v: Vector)
    requires |u| == |v| && IsMatrix(m, |m|, |u|)
    ensures MatVec(m, AddV(u, v)) == AddV(MatVec(m, u), MatVec(m, v))
  {
    forall i | 0 <= i < |m|
      ensures MatVec(m, AddV(u, v))[i] == AddV(MatVec(m, u), MatVec(m, v))[i]
    {
      DotAddRight(m[i], u, v);
    }
  }

  lemma MatVecScale(m: Matrix, c: real, v: Vector)
    requires IsMatrix(m, |m|, |v|)
    ensures MatVec(m, ScaleV(c, v)) == ScaleV(c, MatVec(m, v))
    ensures MatVec(ScaleM(c, m), v) == ScaleV(c, MatVec(m, v))
  {
    forall i | 0 <= i < |m|
      ensures MatVec(m, ScaleV(c, v))[i] == ScaleV(c, MatVec(m, v))[i]
      ensures MatVec(ScaleM(c, m), v)[i] == ScaleV(c, MatVec(m, v))[i]
    {
      DotScaleRight(c, m[i], v);
      DotScaleLeft(c, m[i], v);
    }
  }

  lemma MatVecAddM(a: Matrix, b: Matrix, v: Vector)
    requires SameShape(a, b) && IsMatrix(a, |a|, |v|)
    ensures MatVec(AddM(a, b), v) == AddV(MatVec(a, v), MatVec(b, v))
  {
    forall i | 0 <= i < |a|
      ensures MatVec(AddM(a, b), v)[i] == AddV(MatVec(a, v), MatVec(b, v))[i]
    {
      DotAddLeft(a[i], b[i], v);
    }
  }

  lemma MatVecSub(m: Matrix, u: Vector, v: Vector)
    requires |u| == |v| && IsMatrix(m, |m|, |u|)
    ensures MatVec(m, SubV(u, v)) == SubV(MatVec(m, u), MatVec(m, v))
  {
    forall i | 0 <= i < |m|
      ensures MatVec(m, SubV(u, v))[i] == SubV(MatVec(m, u), MatVec(m, v))[i]
    {
      DotSubRight(m[i], u, v);
    }
  }

  lemma MatVecSubM(a: Matrix, b: Matrix, v: Vector)
    requires SameShape(a, b) && IsMatrix(a, |a|, |v|)
    ensures MatVec(SubM(a, b), v) == SubV(MatVec(a, v), MatVec(b, v))
  {
    forall i | 0 <= i < |a|
      ensures MatVec(SubM(a, b), v)[i] == SubV(MatVec(a, v), MatVec(b, v))[i]
    {
      DotSubLeft(a[i], b[i], v);
    }
  }

  /** Diagonal entry k of p s p' is the quadratic form of row k of p. */
  lemma SandwichDiagonal(p: Matrix, s: Matrix, n: nat, k: nat)
    requires IsMatrix(p, |p|, n) && IsMatrix(s, n, n) && k < |p|
    ensures Mul(p, Mul(s, Transpose(p, n), |p|), |p|)[k][k] == Quad(s, p[k])
  {
    var pt := Transpose(p, n);
    assert Column(pt, k) == p[k];
    ColumnOfMul(s, pt, |p|, k);
  }

  lemma {:induction false} FlattenLength(m: Matrix, rows: nat, cols: nat)
    requires IsMatrix(m, rows, cols)
    ensures |Flatten(m)| == rows * cols
  {
    if rows > 0 {
      FlattenLength(m[1..], rows - 1, cols);
    }
  }

  /** Reshaping a matrix's own entries to its own shape gives it back. */
  lemma {:induction false} ReshapeFlatten(m: Matrix, rows: nat, cols: nat)
    requires IsMatrix(m, rows, cols)
    ensures |Flatten(m)| == rows * cols
    ensures Reshape(Flatten(m), rows, cols) == m
  {
    FlattenLength(m, rows, cols);
    if rows > 0 {
      var f := Flatten(m);
      assert f[..cols] == m[0];
      assert f[cols..] == Flatten(m[1..]);
      ReshapeFlatten(m[1..], rows - 1, cols);
      assert m == [m[0]] + m[1..];
    }
  }
  lemma ShorterByOneRow(rows: nat, cols: nat)
    requires rows > 0
    ensures cols <= rows * cols && rows * cols - cols == (rows - 1) * cols
  {
  }

  /** Reshaping keeps the entries and their row-major order. */
  lemma {:induction false} FlattenReshape(flat: Vector, rows: nat, cols: nat)
    requires |flat| == rows * cols
    ensures Flatten(Reshape(flat, rows, cols)) == flat
  {
    if rows > 0 {
      ShorterByOneRow(rows, cols);
      var tail := flat[cols..];
      FlattenReshape(tail, rows - 1, cols);
      var m := Reshape(flat, rows, cols);
      assert m == [flat[..cols]] + Reshape(tail, rows - 1, cols);
      assert m[1..] == Reshape(tail, rows - 1, cols);
      assert Flatten(m) == flat[..cols] + Flatten(m[1..]);
      assert flat == flat[..cols] + tail;
    }
  }
}
