/** The saturation root finder: a Newton-Raphson search for the largest
    flight-path-angle command whose angle-of-attack step response stays
    within the limit `alphaMax`. Arithmetic is exact; the simulation of the
    step response is replaced by its samples. */
module RootFinding {

  datatype Option<T> = None | Some(value: T)

  function Abs(x: real): real {
    if x < 0.0 then -x else x
  }

  /** The largest of `s[0..n]`. */
  function MaxUpTo(s: seq<real>, n: nat): (m: real)
    requires n < |s|
    ensures exists k :: 0 <= k <= n && s[k] == m
    ensures forall i :: 0 <= i <= n ==> s[i] <= m
  {
    if n == 0 then s[0]
    else
      var rest := MaxUpTo(s, n - 1);
      if s[n] >= rest then s[n] else rest
  }

  /** The largest sample. */
  function Max(s: seq<real>): (m: real)
    requires |s| > 0
  {
    MaxUpTo(s, |s| - 1)
  }

  /** `np.max(response) - alpha_max`; numpy refuses the maximum of an empty
      response, which is `None` here. */
  function Residual(response: seq<real>, alphaMax: real): (r: Option<real>)
    ensures r.Some? <==> |response| > 0
    ensures r.Some? ==> exists k :: 0 <= k < |response| && r.value == response[k] - alphaMax
    ensures r.Some? ==> forall i :: 0 <= i < |response| ==> response[i] - alphaMax <= r.value
  {
    if |response| == 0 then None else Some(Max(response) - alphaMax)
  }

  /** The residual is non-positive exactly when no sample exceeds the limit. */
  lemma ResidualNonPositive(response: seq<real>, alphaMax: real)
    requires |response| > 0
    ensures Residual(response, alphaMax).value <= 0.0 <==>
              forall i :: 0 <= i < |response| ==> response[i] <= alphaMax
  {
  }

  /** Every sample multiplied by `gamma`. */
  function ScaleSamples(gamma: real, s: seq<real>): (r: seq<real>)
    ensures |r| == |s| && forall i :: 0 <= i < |s| ==> r[i] == gamma * s[i]
  {
    seq(|s|, i requires 0 <= i < |s| => gamma * s[i])
  }

  /** `saturation(gamma)`: the residual of the step response of
      `gamma * SS_sat`, which is `gamma` times the unit step response. */
  function Saturation(unitStep: seq<real>, alphaMax: real, gamma: real): (r: Option<real>)
    ensures r.Some? <==> |unitStep| > 0
    ensures r.Some? ==> exists k :: 0 <= k < |unitStep| && r.value == gamma * unitStep[k] - alphaMax
    ensures r.Some? ==> forall i :: 0 <= i < |unitStep| ==> gamma * unitStep[i] - alphaMax <= r.value
  {
    Residual(ScaleSamples(gamma, unitStep), alphaMax)
  }

  /** For a non-negative command the peak scales with the command. */
  lemma {:induction false} ScaledMax(gamma: real, s: seq<real>)
    requires gamma >= 0.0 && |s| > 0
    ensures Max(ScaleSamples(gamma, s)) == gamma * Max(s)
  {
    var m := Max(s);
    var k :| 0 <= k < |s| && s[k] == m;
    var g := ScaleSamples(gamma, s);
    ScaledBound(gamma, s, g, m);
    MaxIsBound(g, gamma * m, k);
  }

  /** Scaling by a non-negative factor keeps a bound a bound. */
  lemma ScaledBound(gamma: real, s: seq<real>, g: seq<real>, m: real)
    requires gamma >= 0.0 && g == ScaleSamples(gamma, s)
    requires forall j :: 0 <= j < |s| ==> s[j] <= m
    ensures forall j :: 0 <= j < |g| ==> g[j] <= gamma * m
  {
    forall j | 0 <= j < |g| ensures g[j] <= gamma * m {
      MulMonotone(gamma, s[j], m);
    }
  }

  lemma MulMonotone(g: real, x: real, y: real)
    requires g >= 0.0 && x <= y
    ensures g * x <= g * y
  {
  }

  /** A bound that some sample reaches is the maximum. */
  lemma MaxIsBound(s: seq<real>, b: real, k: nat)
    requires k < |s| && s[k] == b
    requires forall i :: 0 <= i < |s| ==> s[i] <= b
    ensures Max(s) == b
  {
  }

  /** For non-negative commands the saturation residual is affine:
      `gamma * max(unit response) - alphaMax`. */
  lemma {:induction false} SaturationAffine(unitStep: seq<real>, alphaMax: real, gamma: real)
    requires gamma >= 0.0 && |unitStep| > 0
    ensures Saturation(unitStep, alphaMax, gamma) == Some(gamma * Max(unitStep) - alphaMax)
  {
    ScaledMax(gamma, unitStep);
  }

  /** `derivative(f, x0, h)`: the forward difference. The step must not be
      zero; its slope times the step is the rise of `f` over the step. */
  function Derivative(f: real -> real, x0: real, h: real): (d: real)
    requires h != 0.0
    ensures d * h == f(x0 + h) - f(x0)
  {
    (f(x0 + h) - f(x0)) / h
  }

  /** The forward difference is exact on a line. */
  lemma DerivativeOfLine(f: real -> real, a: real, b: real, x0: real, h: real)
    requires h != 0.0
    requires f(x0) == a * x0 + b && f(x0 + h) == a * (x0 + h) + b
    ensures Derivative(f, x0, h) == a
  {
    var d := Derivative(f, x0, h);
    assert d * h == a * h;
    CancelStep(d, a, h);
  }

  lemma CancelStep(d: real, a: real, h: real)
    requires h != 0.0 && d * h == a * h
    ensures d == a
  {
    assert (d - a) * h == 0.0;
  }


  /** The tolerance of the loop, which is also the difference step. */
  const Eps: real := 0.0000000001

  /** `derivative` in the shape the loop calls it with: `df(f, x0, h)`. */
  const ForwardDifference: (real -> real, real, real) --> real :=
    (g: real -> real, x: real, h: real) requires h != 0.0 => Derivative(g, x, h)

  /** The loop goes on while the last two iterates are further apart than the tolerance. */
  predicate Moving(p: (real, real)) {
    Abs(p.1 - p.0) > Eps
  }

  /** One update from the last iterate `x`, or `None` when the slope there
      is zero and the division would fail. */
  function NewtonStep(f: real -> real, df: (real -> real, real, real) --> real, x: real): Option<real>
    requires df.requires(f, x, Eps)
  {
    var d := df(f, x, Eps);
    if d == 0.0 then None else Some(x - f(x) / d)
  }

  /** The pair `(x0, x1)` after `k` updates, starting from `(0, seed)`, or
      `None` when one of those updates met a zero slope. */
  function Iterate(f: real -> real, df: (real -> real, real, real) --> real, seed: real, k: nat): Option<(real, real)>
    requires forall x :: df.requires(f, x, Eps)
  {
    if k == 0 then Some((0.0, seed))
    else match Iterate(f, df, seed, k - 1)
      case None => None
      case Some(p) =>
        match NewtonStep(f, df, p.1)
        case None => None
        case Some(y) => Some((p.1, y))
  }

  datatype Status = Converged | ZeroSlope | OutOfFuel

  /** The last iterate together with the number of updates made. */
  datatype NewtonResult = NewtonResult(status: Status, root: real, count: nat)

  /** `newton(f, df)`: from `x0 = 0` and `x1 = seed`, replace `x0` by `x1` and
      `x1` by `x1 - f(x1) / df(f, x1, Eps)` while the two are further apart
      than `Eps`. The source has no bound on the number of updates; here at
      most `fuel` are made. The result is the first pair of the orbit at
      which the loop stops, with the number of updates before it. */
  method Newton(f: real -> real, df: (real -> real, real, real) --> real, seed: real, fuel: nat)
    returns (r: NewtonResult)
    requires forall x :: df.requires(f, x, Eps)
    ensures r.count <= fuel
    ensures Iterate(f, df, seed, r.count).Some? && Iterate(f, df, seed, r.count).value.1 == r.root
    ensures forall j :: 0 <= j < r.count ==>
              Iterate(f, df, seed, j).Some? && Moving(Iterate(f, df, seed, j).value)
    ensures r.status == Converged <==> !Moving(Iterate(f, df, seed, r.count).value)
    ensures r.status == ZeroSlope ==> r.count < fuel && df(f, r.root, Eps) == 0.0
    ensures r.status == OutOfFuel ==> r.count == fuel
    ensures Abs(seed) > Eps && r.status == Converged ==> r.count >= 1
  {
    var count := 0;
    var x0, x1 := 0.0, seed;
    while Abs(x1 - x0) > Eps
      invariant count <= fuel
      invariant Iterate(f, df, seed, count) == Some((x0, x1))
      invariant forall j :: 0 <= j < count ==>
                  Iterate(f, df, seed, j).Some? && Moving(Iterate(f, df, seed, j).value)
      decreases fuel - count
    {
      if count == fuel {
        return NewtonResult(OutOfFuel, x1, count);
      }
      var d := df(f, x1, Eps);
      if d == 0.0 {
        return NewtonResult(ZeroSlope, x1, count);
      }
      x0, x1 := x1, x1 - f(x1) / d;
      count := count + 1;
    }
    return NewtonResult(Converged, x1, count);
  }

  /** Each update moves `x1` into `x0` and divides the residual at it by a
      non-zero slope: the residual is the step times the slope. */
  lemma {:induction false} IterateStep(f: real -> real, df: (real -> real, real, real) --> real, seed: real, k: nat)
    requires forall x :: df.requires(f, x, Eps)
    requires Iterate(f, df, seed, k + 1).Some?
    ensures Iterate(f, df, seed, k).Some?
    ensures var p, q := Iterate(f, df, seed, k).value, Iterate(f, df, seed, k + 1).value;
      q.0 == p.1 && df(f, q.0, Eps) != 0.0 && f(q.0) == (q.0 - q.1) * df(f, q.0, Eps)
  {
    var p := Iterate(f, df, seed, k).value;
    var d := df(f, p.1, Eps);
    var q := Iterate(f, df, seed, k + 1).value;
    assert q == (p.1, p.1 - f(p.1) / d);
    assert (f(p.1) / d) * d == f(p.1);
  }

  /** Where the loop stops after at least one update, the residual at the
      previous iterate is at most `Eps` times the slope there. */
  lemma {:induction false} StoppedResidual(f: real -> real, df: (real -> real, real, real) --> real, seed: real, k: nat)
    requires forall x :: df.requires(f, x, Eps)
    requires Iterate(f, df, seed, k + 1).Some? && !Moving(Iterate(f, df, seed, k + 1).value)
    ensures var q := Iterate(f, df, seed, k + 1).value;
      Abs(f(q.0)) <= Eps * Abs(df(f, q.0, Eps))
  {
    IterateStep(f, df, seed, k);
    var q := Iterate(f, df, seed, k + 1).value;
    ResidualBound(f(q.0), q.0 - q.1, df(f, q.0, Eps));
  }

  /** A residual that is a short step times a slope is at most `Eps` times the slope. */
  lemma ResidualBound(r: real, step: real, d: real)
    requires r == step * d && Abs(step) <= Eps
    ensures Abs(r) <= Eps * Abs(d)
  {
    AbsMul(step, d);
    MulMonotoneRight(Abs(step), Eps, Abs(d));
  }

  lemma AbsMul(x: real, y: real)
    ensures Abs(x * y) == Abs(x) * Abs(y)
  {
  }

  lemma MulMonotoneRight(x: real, y: real, g: real)
    requires g >= 0.0 && x <= y
    ensures x * g <= y * g
  {
  }

  /** Newton's step from any point of a line lands on its root. */
  lemma LineStep(a: real, b: real, x: real)
    requires a != 0.0
    ensures x - (a * x + b) / a == -b / a
  {
    assert (a * x + b) / a == x + b / a;
  }

  /** On a function that is a line from `lo` on, with the seed and the root in
      that range, the forward-difference loop reaches the root with the first
      update and repeats it with the second, where it stops. */
  lemma {:induction false} NewtonOnLine(f: real -> real, a: real, b: real, lo: real, seed: real)
    requires a != 0.0
    requires forall x :: x >= lo ==> f(x) == a * x + b
    requires seed >= lo && -b / a >= lo
    ensures Iterate(f, ForwardDifference, seed, 1) == Some((seed, -b / a))
    ensures Iterate(f, ForwardDifference, seed, 2) == Some((-b / a, -b / a))
    ensures !Moving(Iterate(f, ForwardDifference, seed, 2).value)
  {
    var root := -b / a;
    DerivativeOfLine(f, a, b, seed, Eps);
    DerivativeOfLine(f, a, b, root, Eps);
    LineStep(a, b, seed);
    LineStep(a, b, root);
    assert ForwardDifference(f, seed, Eps) == a;
    assert ForwardDifference(f, root, Eps) == a;
    assert NewtonStep(f, ForwardDifference, seed) == Some(root);
    assert NewtonStep(f, ForwardDifference, root) == Some(root);
  }

  /** The residual as the function the loop searches a root of. */
  function SaturationOf(unitStep: seq<real>, alphaMax: real): real -> real
    requires |unitStep| > 0
  {
    (gamma: real) => Saturation(unitStep, alphaMax, gamma).value
  }

  /** From zero on, the residual is the line with slope `Max(unitStep)`
      through `-alphaMax`. */
  lemma {:induction false} SaturationLine(unitStep: seq<real>, alphaMax: real)
    requires |unitStep| > 0
    ensures forall x :: x >= 0.0 ==>
              SaturationOf(unitStep, alphaMax)(x) == Max(unitStep) * x + -alphaMax
  {
    forall x | x >= 0.0
      ensures SaturationOf(unitStep, alphaMax)(x) == Max(unitStep) * x + -alphaMax
    {
      SaturationAt(unitStep, alphaMax, x);
    }
  }

  lemma SaturationAt(unitStep: seq<real>, alphaMax: real, x: real)
    requires |unitStep| > 0 && x >= 0.0
    ensures SaturationOf(unitStep, alphaMax)(x) == Max(unitStep) * x + -alphaMax
  {
    assert SaturationOf(unitStep, alphaMax)(x) == Saturation(unitStep, alphaMax, x).value;
    SaturationAffine(unitStep, alphaMax, x);
  }

  /** The search on a step response with a positive peak `M` and a
      non-negative limit: from any non-negative seed it finds the command
      `alphaMax / M` in one update and stops after the second, and that
      command reaches the limit exactly. */
  lemma {:induction false} SaturationSearch(unitStep: seq<real>, alphaMax: real, seed: real)
    requires |unitStep| > 0 && Max(unitStep) > 0.0 && alphaMax >= 0.0 && seed >= 0.0
    ensures var root := alphaMax / Max(unitStep);
      Iterate(SaturationOf(unitStep, alphaMax), ForwardDifference, seed, 1) == Some((seed, root)) &&
      Iterate(SaturationOf(unitStep, alphaMax), ForwardDifference, seed, 2) == Some((root, root)) &&
      Saturation(unitStep, alphaMax, root) == Some(0.0)
  {
    SaturationLine(unitStep, alphaMax);
    SearchOnRay(SaturationOf(unitStep, alphaMax), Max(unitStep), alphaMax, seed);
    SaturationAtRoot(unitStep, alphaMax);
  }

  /** The loop on a line of positive slope through `-c` from zero on. */
  lemma {:induction false} SearchOnRay(f: real -> real, m: real, c: real, seed: real)
    requires m > 0.0 && c >= 0.0 && seed >= 0.0
    requires forall x :: x >= 0.0 ==> f(x) == m * x + -c
    ensures Iterate(f, ForwardDifference, seed, 1) == Some((seed, c / m))
    ensures Iterate(f, ForwardDifference, seed, 2) == Some((c / m, c / m))
  {
    assert -(-c) / m == c / m;
    NewtonOnLine(f, m, -c, 0.0, seed);
  }

  /** The command `alphaMax / M` brings the peak exactly to the limit. */
  lemma {:induction false} SaturationAtRoot(unitStep: seq<real>, alphaMax: real)
    requires |unitStep| > 0 && Max(unitStep) > 0.0 && alphaMax >= 0.0
    ensures Saturation(unitStep, alphaMax, alphaMax / Max(unitStep)) == Some(0.0)
  {
    var root := alphaMax / Max(unitStep);
    DivMul(alphaMax, Max(unitStep));
    SaturationAffine(unitStep, alphaMax, root);
    var t := root * Max(unitStep) - alphaMax;
    assert t == 0.0;
    assert Some(t) == Some(0.0);
  }

  lemma DivMul(x: real, m: real)
    requires m > 0.0 && x >= 0.0
    ensures x / m >= 0.0 && (x / m) * m - x == 0.0
  {
  }

  /** From zero on, the forward difference of the saturation residual is the
      peak of the unit response. */
  lemma {:induction false} SaturationSlope(unitStep: seq<real>, alphaMax: real, x: real)
    requires |unitStep| > 0 && x >= 0.0
    ensures ForwardDifference(SaturationOf(unitStep, alphaMax), x, Eps) == Max(unitStep)
  {
    SaturationLine(unitStep, alphaMax);
    SlopeOnRay(SaturationOf(unitStep, alphaMax), Max(unitStep), alphaMax, x);
  }

  /** The forward difference of a line through `-c` from zero on. */
  lemma {:induction false} SlopeOnRay(f: real -> real, m: real, c: real, x: real)
    requires x >= 0.0
    requires forall y :: y >= 0.0 ==> f(y) == m * y + -c
    ensures ForwardDifference(f, x, Eps) == m
  {
    DerivativeOfLine(f, m, -c, x, Eps);
    assert ForwardDifference(f, x, Eps) == Derivative(f, x, Eps);
  }

  /** `newton(saturation, derivative)` from a positive seed: with two updates
      allowed, the loop converges on the command `alphaMax / M` that brings
      the peak of the response exactly to the limit. */
  method SaturationCommand(unitStep: seq<real>, alphaMax: real, seed: real) returns (r: NewtonResult)
    requires |unitStep| > 0 && Max(unitStep) > 0.0 && alphaMax >= 0.0 && seed > Eps
    ensures r.status == Converged && 1 <= r.count <= 2
    ensures r.root == alphaMax / Max(unitStep)
    ensures Saturation(unitStep, alphaMax, r.root) == Some(0.0)
  {
    var f := SaturationOf(unitStep, alphaMax);
    r := Newton(f, ForwardDifference, seed, 2);
    SaturationSearch(unitStep, alphaMax, seed);
    var root := alphaMax / Max(unitStep);
    if r.status == ZeroSlope {
      var x := Iterate(f, ForwardDifference, seed, r.count).value.1;
      assert x == seed || x == root;
      DivMul(alphaMax, Max(unitStep));
      SaturationSlope(unitStep, alphaMax, x);
      assert false;
    }
    assert r.count != 0;
  }
}
