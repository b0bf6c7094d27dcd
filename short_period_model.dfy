/** The short-period reduction: the fast mode in angle of attack and pitch
    rate, kept as rows and columns 2..3 of the full model. */
module ShortPeriodModel {
  import opened Matrices
  import opened TestMatrices

  datatype ShortPeriod = ShortPeriod(As: Matrix, Bs: Matrix, Csa: Matrix, Csq: Matrix, Ds: Matrix)

  /** The constructor: a copy of rows and columns 2..3 of `a`, rows 2..3 of
      the first column of `b`, the two observation rows and a zero
      feed-through. */
  function NewShortPeriod(a: Matrix, b: Matrix): (s: ShortPeriod)
    ensures s.Csa == UnitRow(2, 0) && s.Csq == UnitRow(2, 1)
    ensures s.Ds == Zeros(1, 1)
  {
    var csa, csq, ds := [[1.0, 0.0]], [[0.0, 1.0]], [[0.0]];
    assert csa[0] == UnitRow(2, 0)[0] && csq[0] == UnitRow(2, 1)[0] && ds[0] == Zeros(1, 1)[0];
    ShortPeriod(Block(a, 2, 4, 2, 4), Block(b, 2, 4, 0, 1), csa, csq, ds)
  }

  /** For any model with at least four states, the reduction is 2 x 2 / 2 x 1
      and holds the parent's entries shifted by two. */
  lemma ShortPeriodBlocks(a: Matrix, b: Matrix, n: nat, m: nat)
    requires IsShape(a, n, n) && n >= 4
    requires IsShape(b, n, m) && m >= 1
    ensures var s := NewShortPeriod(a, b);
      IsShape(s.As, 2, 2) && IsShape(s.Bs, 2, 1) &&
      (forall i, j :: 0 <= i < 2 && 0 <= j < 2 ==> s.As[i][j] == a[i + 2][j + 2]) &&
      (forall i :: 0 <= i < 2 ==> s.Bs[i][0] == b[i + 2][0])
  {
    BlockOf(a, n, n, 2, 4, 2, 4);
    BlockOf(b, n, m, 2, 4, 0, 1);
  }

  /** `Csa` observes the angle of attack and `Csq` the pitch rate of a
      short-period state column. */
  lemma ShortPeriodObservations(a: Matrix, b: Matrix, x: Matrix)
    requires IsShape(x, 2, 1)
    ensures MatMul(NewShortPeriod(a, b).Csa, x, 1, 2, 1) == [[x[0][0]]]
    ensures MatMul(NewShortPeriod(a, b).Csq, x, 1, 2, 1) == [[x[1][0]]]
  {
    UnitRowSelects(2, 0, x);
    UnitRowSelects(2, 1, x);
  }

  /** The reduction of the literal test model. */
  lemma ShortPeriodOfTestModel()
    ensures NewShortPeriod(TestA, TestB).As == [[-1.2484, 1.0], [-50.2354, -0.6048]]
    ensures NewShortPeriod(TestA, TestB).Bs == [[-0.1785], [-31.4385]]
  {
    ShortPeriodBlocks(TestA, TestB, 6, 1);
    var s := NewShortPeriod(TestA, TestB);
    assert s.As[0] == [-1.2484, 1.0] && s.As[1] == [-50.2354, -0.6048];
    assert s.Bs[0] == [-0.1785] && s.Bs[1] == [-31.4385];
  }
}
