/** Dense real matrices as sequences of rows, with the handful of numpy
    operations the flight-dynamics code uses: two-dimensional slicing,
    scalar scaling, subtraction and the matrix product `@`.
    Arithmetic is exact (`real`), so numpy's rounding is not modelled. */
module Matrices {

  type Matrix = seq<seq<real>>

  /** `m` is a rectangular `rows` x `cols` matrix. */
  predicate IsShape(m: Matrix, rows: nat, cols: nat) {
    |m| == rows && forall i :: 0 <= i < rows ==> |m[i]| == cols
  }

  function Min(a: nat, b: nat): nat {
    if a <= b then a else b
  }

  /** Python's `s[lo:hi]` for non-negative bounds: both bounds are clipped to
      the length and a reversed range gives the empty sequence. */
  function Slice<T>(s: seq<T>, lo: nat, hi: nat): (r: seq<T>)
    ensures |r| == if lo < Min(hi, |s|) then Min(hi, |s|) - lo else 0
    ensures forall k :: 0 <= k < |r| ==> lo + k < |s| && r[k] == s[lo + k]
  {
    var a, b := Min(lo, |s|), Min(hi, |s|);
    if b <= a then [] else s[a..b]
  }

  /** numpy's `m[r0:r1, c0:c1]`, taken as a copy. */
  function Block(m: Matrix, r0: nat, r1: nat, c0: nat, c1: nat): Matrix {
    var rs := Slice(m, r0, r1);
    seq(|rs|, i requires 0 <= i < |rs| => Slice(rs[i], c0, c1))
  }

  /** numpy's `m[r0:, c0:]`. */
  function BlockFrom(m: Matrix, r0: nat, c0: nat): Matrix {
    var rs := Slice(m, r0, |m|);
    seq(|rs|, i requires 0 <= i < |rs| => Slice(rs[i], c0, |rs[i]|))
  }

  /** A block that lies inside a rectangular matrix has the block's shape and
      holds the parent's entries, shifted by the block's corner. */
  lemma BlockOf(m: Matrix, rows: nat, cols: nat, r0: nat, r1: nat, c0: nat, c1: nat)
    requires IsShape(m, rows, cols)
    requires r0 <= r1 <= rows && c0 <= c1 <= cols
    ensures IsShape(Block(m, r0, r1, c0, c1), r1 - r0, c1 - c0)
    ensures forall i, j :: 0 <= i < r1 - r0 && 0 <= j < c1 - c0 ==>
              Block(m, r0, r1, c0, c1)[i][j] == m[r0 + i][c0 + j]
  {
  }

  /** Dropping the first `r0` rows and `c0` columns of a rectangular matrix. */
  lemma BlockFromOf(m: Matrix, rows: nat, cols: nat, r0: nat, c0: nat)
    requires IsShape(m, rows, cols)
    requires r0 <= rows && c0 <= cols
    ensures IsShape(BlockFrom(m, r0, c0), rows - r0, cols - c0)
    ensures forall i, j :: 0 <= i < rows - r0 && 0 <= j < cols - c0 ==>
              BlockFrom(m, r0, c0)[i][j] == m[r0 + i][c0 + j]
  {
  }

  /** `k * m`, entry by entry. */
  function Scale(k: real, m: Matrix): (r: Matrix)
    ensures |r| == |m|
    ensures forall i :: 0 <= i < |m| ==> |r[i]| == |m[i]|
    ensures forall i, j :: 0 <= i < |m| && 0 <= j < |m[i]| ==> r[i][j] == k * m[i][j]
  {
    seq(|m|, i requires 0 <= i < |m| => seq(|m[i]|, j requires 0 <= j < |m[i]| => k * m[i][j]))
  }

  /** `x - y` for two matrices of the same shape. */
  function Sub(x: Matrix, y: Matrix, rows: nat, cols: nat): (r: Matrix)
    requires IsShape(x, rows, cols) && IsShape(y, rows, cols)
    ensures IsShape(r, rows, cols)
    ensures forall i, j :: 0 <= i < rows && 0 <= j < cols ==> r[i][j] == x[i][j] - y[i][j]
  {
    seq(rows, i requires 0 <= i < rows => seq(cols, j requires 0 <= j < cols => x[i][j] - y[i][j]))
  }

  /** The sum of `x[i][k] * y[k][j]` over `k < n`. */
  function DotTo(x: Matrix, y: Matrix, i: nat, j: nat, n: nat): real
    requires i < |x| && n <= |x[i]| && n <= |y|
    requires forall k :: 0 <= k < n ==> j < |y[k]|
  {
    if n == 0 then 0.0 else DotTo(x, y, i, j, n - 1) + x[i][n - 1] * y[n - 1][j]
  }

  /** The matrix product `x @ y` of a `rows` x `inner` and an `inner` x `cols` matrix. */
  function MatMul(x: Matrix, y: Matrix, rows: nat, inner: nat, cols: nat): (r: Matrix)
    requires IsShape(x, rows, inner) && IsShape(y, inner, cols)
    ensures IsShape(r, rows, cols)
    ensures forall i, j :: 0 <= i < rows && 0 <= j < cols ==> r[i][j] == DotTo(x, y, i, j, inner)
  {
    seq(rows, i requires 0 <= i < rows =>
      seq(cols, j requires 0 <= j < cols => DotTo(x, y, i, j, inner)))
  }

  /** A column times a row is their outer product. */
  lemma OuterProduct(x: Matrix, y: Matrix, rows: nat, cols: nat)
    requires IsShape(x, rows, 1) && IsShape(y, 1, cols)
    ensures forall i, j :: 0 <= i < rows && 0 <= j < cols ==>
              MatMul(x, y, rows, 1, cols)[i][j] == x[i][0] * y[0][j]
  {
    forall i, j | 0 <= i < rows && 0 <= j < cols
      ensures DotTo(x, y, i, j, 1) == x[i][0] * y[0][j]
    {
      assert DotTo(x, y, i, j, 0) == 0.0;
    }
  }

  /** The `rows` x `cols` zero matrix, numpy's `np.zeros((rows, cols))`. */
  function Zeros(rows: nat, cols: nat): (r: Matrix)
    ensures IsShape(r, rows, cols)
    ensures forall i, j :: 0 <= i < rows && 0 <= j < cols ==> r[i][j] == 0.0
  {
    seq(rows, i => seq(cols, j => 0.0))
  }

  /** The 1 x `n` row with a 1 at `k` and 0 elsewhere. */
  function UnitRow(n: nat, k: nat): (r: Matrix)
    requires k < n
    ensures IsShape(r, 1, n) && r[0][k] == 1.0
    ensures forall j :: 0 <= j < n && j != k ==> r[0][j] == 0.0
  {
    [seq(n, j => if j == k then 1.0 else 0.0)]
  }

  /** Applying a unit row to an `n` x 1 state column reads off entry `k`. */
  lemma {:induction false} UnitRowSelects(n: nat, k: nat, x: Matrix)
    requires k < n && IsShape(x, n, 1)
    ensures MatMul(UnitRow(n, k), x, 1, n, 1) == [[x[k][0]]]
  {
    var u := UnitRow(n, k);
    UnitRowPrefix(u, x, n, k, n);
    var r := MatMul(u, x, 1, n, 1);
    assert r[0][0] == x[k][0];
    assert r[0] == [x[k][0]];
  }

  /** The partial sums of a unit row against a column. */
  lemma {:induction false} UnitRowPrefix(u: Matrix, x: Matrix, n: nat, k: nat, m: nat)
    requires k < n && m <= n && u == UnitRow(n, k) && IsShape(x, n, 1)
    ensures DotTo(u, x, 0, 0, m) == if k < m then x[k][0] else 0.0
  {
    if m > 0 {
      UnitRowPrefix(u, x, n, k, m - 1);
    }
  }
}
