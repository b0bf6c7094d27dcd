/** The pitch-rate autopilot loop. The plant is the full longitudinal model
    without its velocity state, so its states are flight-path angle, angle of
    attack, pitch rate, pitch angle and altitude; the loop feeds the pitch
    rate back through a scalar gain. */
module Autopilot {
  import opened Matrices

  /** The plant stored by the constructor. */
  datatype AutoPilot = AutoPilot(A: Matrix, B: Matrix, D: Matrix)

  /** The closed loop, in the order the feedback method returns it. */
  datatype ClosedLoop = ClosedLoop(Aq: Matrix, Bq: Matrix, Cq: Matrix, Dq: Matrix)

  /** The pitch-rate gain, tuned outside this code. */
  const Kr: real := -0.33057

  /** The constructor: drop row and column 0 of `a` and row 0 of `b`; the
      feed-through is a 1 x 1 zero. */
  function NewAutoPilot(a: Matrix, b: Matrix): (ap: AutoPilot)
    ensures |a| >= 1 ==> |ap.A| == |a| - 1
    ensures forall i, j :: 0 <= i < |ap.A| && 0 <= j < |ap.A[i]| ==>
              i + 1 < |a| && j + 1 < |a[i + 1]| && ap.A[i][j] == a[i + 1][j + 1]
    ensures |b| >= 1 ==> ap.B == b[1..]
    ensures ap.D == Zeros(1, 1)
  {
    var d := [[0.0]];
    assert d[0] == Zeros(1, 1)[0];
    AutoPilot(BlockFrom(a, 1, 1), Slice(b, 1, |b|), d)
  }

  /** For the six-state model the plant has five states and one input. */
  lemma AutoPilotShape(a: Matrix, b: Matrix)
    requires IsShape(a, 6, 6) && IsShape(b, 6, 1)
    ensures var ap := NewAutoPilot(a, b);
      IsShape(ap.A, 5, 5) && IsShape(ap.B, 5, 1) &&
      (forall i, j :: 0 <= i < 5 && 0 <= j < 5 ==> ap.A[i][j] == a[i + 1][j + 1]) &&
      (forall i :: 0 <= i < 5 ==> ap.B[i] == b[i + 1])
  {
    BlockFromOf(a, 6, 6, 1, 1);
  }

  /** The observation row `[[0, 0, 1, 0, 0]]`. */
  function QRow(): (c: Matrix)
    ensures c == UnitRow(5, 2)
  {
    var c := [[0.0, 0.0, 1.0, 0.0, 0.0]];
    assert c[0] == UnitRow(5, 2)[0];
    c
  }

  /** The observation row reads the pitch rate, state 2, off a plant state column. */
  lemma QRowSelectsPitchRate(x: Matrix)
    requires IsShape(x, 5, 1)
    ensures MatMul(QRow(), x, 1, 5, 1) == [[x[2][0]]]
  {
    UnitRowSelects(5, 2, x);
  }

  /** `A - k * B @ C`, `k * B`, `C` and `k * D`: unit feedback of the output
      through gain `k`, on a five-state, one-input plant. */
  function CloseLoop(ap: AutoPilot, k: real): (r: ClosedLoop)
    requires IsShape(ap.A, 5, 5) && IsShape(ap.B, 5, 1)
    ensures IsShape(r.Aq, 5, 5) && IsShape(r.Bq, 5, 1) && r.Cq == QRow()
  {
    var c := QRow();
    ClosedLoop(Sub(ap.A, MatMul(Scale(k, ap.B), c, 5, 1, 5), 5, 5), Scale(k, ap.B), c, Scale(k, ap.D))
  }

  /** `compute_q_feedback`, without the transfer function and the eigenvalues. */
  function ComputeQFeedback(ap: AutoPilot): (r: ClosedLoop)
    requires IsShape(ap.A, 5, 5) && IsShape(ap.B, 5, 1)
    ensures IsShape(r.Aq, 5, 5) && IsShape(r.Bq, 5, 1) && r.Cq == QRow()
    ensures forall i, j :: 0 <= i < 5 && 0 <= j < 5 && j != 2 ==> r.Aq[i][j] == ap.A[i][j]
    ensures forall i :: 0 <= i < 5 ==> r.Aq[i][2] == ap.A[i][2] - Kr * ap.B[i][0]
    ensures forall i :: 0 <= i < 5 ==> r.Bq[i][0] == Kr * ap.B[i][0]
    ensures r.Dq == Scale(Kr, ap.D)
  {
    CloseLoopEntries(ap, Kr);
    CloseLoop(ap, Kr)
  }

  /** The closed-loop state matrix entry by entry: the plant's entry minus
      `k * B[i] * C[j]`. */
  lemma {:induction false} CloseLoopState(ap: AutoPilot, k: real)
    requires IsShape(ap.A, 5, 5) && IsShape(ap.B, 5, 1)
    ensures var r := CloseLoop(ap, k);
      forall i, j :: 0 <= i < 5 && 0 <= j < 5 ==> r.Aq[i][j] == ap.A[i][j] - k * ap.B[i][0] * r.Cq[0][j]
  {
    forall i, j | 0 <= i < 5 && 0 <= j < 5
      ensures CloseLoop(ap, k).Aq[i][j] == ap.A[i][j] - k * ap.B[i][0] * CloseLoop(ap, k).Cq[0][j]
    {
      CloseLoopStateAt(ap, k, i, j);
    }
  }

  lemma CloseLoopStateAt(ap: AutoPilot, k: real, i: nat, j: nat)
    requires IsShape(ap.A, 5, 5) && IsShape(ap.B, 5, 1) && i < 5 && j < 5
    ensures CloseLoop(ap, k).Aq[i][j] == ap.A[i][j] - k * ap.B[i][0] * CloseLoop(ap, k).Cq[0][j]
  {
    var c := QRow();
    var kb := Scale(k, ap.B);
    var bc := MatMul(kb, c, 5, 1, 5);
    OuterProduct(kb, c, 5, 5);
    var r := CloseLoop(ap, k);
    assert r.Aq == Sub(ap.A, bc, 5, 5);
    assert r.Aq[i][j] == ap.A[i][j] - bc[i][j];
    assert bc[i][j] == kb[i][0] * c[0][j];
  }

  /** Because the observation row is a unit row, feedback changes column 2
      of the state matrix only, by `-k * B`; the input matrix is scaled by
      the gain, and so is the feed-through. */
  lemma {:induction false} CloseLoopEntries(ap: AutoPilot, k: real)
    requires IsShape(ap.A, 5, 5) && IsShape(ap.B, 5, 1)
    ensures var r := CloseLoop(ap, k);
      (forall i, j :: 0 <= i < 5 && 0 <= j < 5 && j != 2 ==> r.Aq[i][j] == ap.A[i][j]) &&
      (forall i :: 0 <= i < 5 ==> r.Aq[i][2] == ap.A[i][2] - k * ap.B[i][0]) &&
      (forall i :: 0 <= i < 5 ==> r.Bq[i][0] == k * ap.B[i][0]) &&
      r.Dq == Scale(k, ap.D)
  {
    var r := CloseLoop(ap, k);
    forall i, j | 0 <= i < 5 && 0 <= j < 5 && j != 2
      ensures r.Aq[i][j] == ap.A[i][j]
    {
      CloseLoopStateAt(ap, k, i, j);
      ZeroTerm(k, ap.B[i][0], r.Cq[0][j]);
    }
    forall i | 0 <= i < 5
      ensures r.Aq[i][2] == ap.A[i][2] - k * ap.B[i][0]
    {
      CloseLoopStateAt(ap, k, i, 2);
    }
  }

  lemma ZeroTerm(k: real, b: real, c: real)
    requires c == 0.0
    ensures k * b * c == 0.0
  {
  }

  /** A zero feed-through stays zero under feedback. */
  lemma ZeroFeedThrough(ap: AutoPilot, k: real)
    requires IsShape(ap.A, 5, 5) && IsShape(ap.B, 5, 1) && ap.D == Zeros(1, 1)
    ensures CloseLoop(ap, k).Dq == Zeros(1, 1)
  {
    assert CloseLoop(ap, k).Dq[0] == Zeros(1, 1)[0];
  }

  /** With a zero gain the loop is the open plant. */
  lemma {:induction false} ZeroGainIsOpenLoop(ap: AutoPilot)
    requires IsShape(ap.A, 5, 5) && IsShape(ap.B, 5, 1)
    ensures CloseLoop(ap, 0.0).Aq == ap.A
  {
    CloseLoopEntries(ap, 0.0);
    var r := CloseLoop(ap, 0.0);
    forall i | 0 <= i < 5 ensures r.Aq[i] == ap.A[i] {
      assert forall j :: 0 <= j < 5 ==> r.Aq[i][j] == ap.A[i][j];
    }
  }

  /** The whole path from the six-state model: states and input shifted by
      one, pitch-rate column corrected by the tuned gain, zero feed-through. */
  lemma QFeedbackOfModel(a: Matrix, b: Matrix)
    requires IsShape(a, 6, 6) && IsShape(b, 6, 1)
    ensures IsShape(NewAutoPilot(a, b).A, 5, 5) && IsShape(NewAutoPilot(a, b).B, 5, 1)
    ensures var r := ComputeQFeedback(NewAutoPilot(a, b));
      (forall i, j :: 0 <= i < 5 && 0 <= j < 5 && j != 2 ==> r.Aq[i][j] == a[i + 1][j + 1]) &&
      (forall i :: 0 <= i < 5 ==> r.Aq[i][2] == a[i + 1][3] - Kr * b[i + 1][0]) &&
      (forall i :: 0 <= i < 5 ==> r.Bq[i][0] == Kr * b[i + 1][0]) &&
      r.Cq == QRow() && r.Dq == Zeros(1, 1)
  {
    AutoPilotShape(a, b);
    var ap := NewAutoPilot(a, b);
    CloseLoopEntries(ap, Kr);
    ZeroFeedThrough(ap, Kr);
  }
}
