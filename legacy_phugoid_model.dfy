/** The second, lower-case phugoid file. Its class is named `Phugoid`, but its
    constructor slices rows and columns 2..3, the short-period block, and
    names its fields after the short-period channels. */
module LegacyPhugoidModel {
  import opened Matrices
  import opened TestMatrices
  import PhugoidModel
  import ShortPeriodModel

  datatype LegacyPhugoid = LegacyPhugoid(As: Matrix, Bs: Matrix, Csa: Matrix, Csq: Matrix, Ds: Matrix)

  /** The constructor: the same slices and rows as the short-period one. */
  function NewLegacyPhugoid(a: Matrix, b: Matrix): (p: LegacyPhugoid)
    ensures p.Csa == UnitRow(2, 0) && p.Csq == UnitRow(2, 1)
    ensures p.Ds == Zeros(1, 1)
  {
    var csa, csq, ds := [[1.0, 0.0]], [[0.0, 1.0]], [[0.0]];
    assert csa[0] == UnitRow(2, 0)[0] && csq[0] == UnitRow(2, 1)[0] && ds[0] == Zeros(1, 1)[0];
    LegacyPhugoid(Block(a, 2, 4, 2, 4), Block(b, 2, 4, 0, 1), csa, csq, ds)
  }

  /** For any model with at least four states the block is rows and columns
      2..3 of the parent, despite the class name. */
  lemma LegacyPhugoidBlocks(a: Matrix, b: Matrix, n: nat, m: nat)
    requires IsShape(a, n, n) && n >= 4
    requires IsShape(b, n, m) && m >= 1
    ensures var p := NewLegacyPhugoid(a, b);
      IsShape(p.As, 2, 2) && IsShape(p.Bs, 2, 1) &&
      (forall i, j :: 0 <= i < 2 && 0 <= j < 2 ==> p.As[i][j] == a[i + 2][j + 2]) &&
      (forall i :: 0 <= i < 2 ==> p.Bs[i][0] == b[i + 2][0])
  {
    BlockOf(a, n, n, 2, 4, 2, 4);
    BlockOf(b, n, m, 2, 4, 0, 1);
  }

  /** Field for field, it is the short-period reduction of the same model. */
  lemma LegacyIsShortPeriod(a: Matrix, b: Matrix)
    ensures var p, s := NewLegacyPhugoid(a, b), ShortPeriodModel.NewShortPeriod(a, b);
      p.As == s.As && p.Bs == s.Bs && p.Csa == s.Csa && p.Csq == s.Csq && p.Ds == s.Ds
  {
  }

  /** On the literal test model it is not the phugoid block. */
  lemma LegacyIsNotPhugoid()
    ensures NewLegacyPhugoid(TestA, TestB).As != PhugoidModel.NewPhugoid(TestA, TestB).Ap
  {
    PhugoidModel.PhugoidOfTestModel();
    LegacyPhugoidBlocks(TestA, TestB, 6, 1);
    assert NewLegacyPhugoid(TestA, TestB).As[0][0] == -1.2484;
  }
}
