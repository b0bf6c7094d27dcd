/** The phugoid reduction: the slow mode that trades speed for height, kept
    as the velocity / flight-path-angle block of the full model. */
module PhugoidModel {
  import opened Matrices
  import opened TestMatrices

  datatype Phugoid = Phugoid(Ap: Matrix, Bp: Matrix, Cpv: Matrix, Cpg: Matrix, Dp: Matrix)

  /** The constructor: a copy of rows and columns 0..1 of `a`, rows 0..1 of
      the first column of `b`, the two observation rows and a zero
      feed-through. */
  function NewPhugoid(a: Matrix, b: Matrix): (p: Phugoid)
    ensures p.Cpv == UnitRow(2, 0) && p.Cpg == UnitRow(2, 1)
    ensures p.Dp == Zeros(1, 1)
  {
    var cpv, cpg, dp := [[1.0, 0.0]], [[0.0, 1.0]], [[0.0]];
    assert cpv[0] == UnitRow(2, 0)[0] && cpg[0] == UnitRow(2, 1)[0] && dp[0] == Zeros(1, 1)[0];
    Phugoid(Block(a, 0, 2, 0, 2), Block(b, 0, 2, 0, 1), cpv, cpg, dp)
  }

  /** For any model with at least two states, the reduction is 2 x 2 / 2 x 1 and
      holds the parent's top-left entries. */
  lemma PhugoidBlocks(a: Matrix, b: Matrix, n: nat, m: nat)
    requires IsShape(a, n, n) && n >= 2
    requires IsShape(b, n, m) && m >= 1
    ensures var p := NewPhugoid(a, b);
      IsShape(p.Ap, 2, 2) && IsShape(p.Bp, 2, 1) &&
      (forall i, j :: 0 <= i < 2 && 0 <= j < 2 ==> p.Ap[i][j] == a[i][j]) &&
      (forall i :: 0 <= i < 2 ==> p.Bp[i][0] == b[i][0])
  {
    BlockOf(a, n, n, 0, 2, 0, 2);
    BlockOf(b, n, m, 0, 2, 0, 1);
  }

  /** `Cpv` observes the velocity and `Cpg` the flight-path angle of a
      phugoid state column. */
  lemma PhugoidObservations(a: Matrix, b: Matrix, x: Matrix)
    requires IsShape(x, 2, 1)
    ensures MatMul(NewPhugoid(a, b).Cpv, x, 1, 2, 1) == [[x[0][0]]]
    ensures MatMul(NewPhugoid(a, b).Cpg, x, 1, 2, 1) == [[x[1][0]]]
  {
    UnitRowSelects(2, 0, x);
    UnitRowSelects(2, 1, x);
  }

  /** The reduction of the literal test model. */
  lemma PhugoidOfTestModel()
    ensures NewPhugoid(TestA, TestB).Ap == [[-0.034, -0.0237], [0.0461, 0.0]]
    ensures NewPhugoid(TestA, TestB).Bp == [[0.0], [0.1785]]
  {
    PhugoidBlocks(TestA, TestB, 6, 1);
    var p := NewPhugoid(TestA, TestB);
    assert p.Ap[0] == [-0.034, -0.0237] && p.Ap[1] == [0.0461, 0.0];
    assert p.Bp[0] == [0.0] && p.Bp[1] == [0.1785];
  }
}
