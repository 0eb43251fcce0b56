/**
 * One step of the discrete-time linear Kalman filter as pure functions:
 * predict the state and its covariance, then correct them with one
 * measurement. nx is the state dimension, nz the measurement dimension and
 * nu the control dimension. The only failure is an innovation covariance
 * S = H·P'·Hᵗ + R without an inverse; it yields Err(InverseError) instead of
 * a posterior estimate.
 */
module Kalman {
  import opened Matrices
  import opened Inversion

  /** The pair (x, P) that a filter stores and returns. */
  datatype Estimate = Estimate(x: Vector, p: Matrix)

  datatype FilterError = InverseError

  datatype Result<T> = Ok(value: T) | Err(error: FilterError)

  /** x is a state of length nx and p its nx x nx covariance. */
  predicate EstimateShapes(x: Vector, p: Matrix, nx: nat) {
    |x| == nx && IsMatrix(p, nx, nx)
  }

  /** F, Q are nx x nx, H is nz x nx and R is nz x nz. */
  predicate ModelShapes(f: Matrix, h: Matrix, q: Matrix, r: Matrix, nx: nat, nz: nat) {
    IsMatrix(f, nx, nx) && IsMatrix(h, nz, nx) && IsMatrix(q, nx, nx) && IsMatrix(r, nz, nz)
  }

  // ---------------------------------------------------------------------
  // The stages of one step
  // ---------------------------------------------------------------------

  /** Predicted state x' = F·x. */
  function PredictState(f: Matrix, x: Vector): (xp: Vector)
    requires IsMatrix(f, |x|, |x|)
    ensures |xp| == |x|
  {
    MatVec(f, x)
  }

  /** Predicted state with a control input, x' = F·x + B·u. */
  function PredictStateControlled(f: Matrix, x: Vector, b: Matrix, u: Vector): (xp: Vector)
    requires IsMatrix(f, |x|, |x|) && IsMatrix(b, |x|, |u|)
    ensures |xp| == |x|
  {
    VecAdd(MatVec(f, x), MatVec(b, u))
  }

  /** Predicted covariance P' = F·P·Fᵗ + Q. */
  function PredictCovariance(f: Matrix, p: Matrix, q: Matrix, nx: nat): (pp: Matrix)
    requires IsMatrix(f, nx, nx) && IsMatrix(p, nx, nx) && IsMatrix(q, nx, nx)
    ensures IsMatrix(pp, nx, nx)
  {
    Add(Mul(Mul(f, p, nx), Transpose(f, nx), nx), q)
  }

  /** Innovation covariance S = H·P'·Hᵗ + R. */
  function InnovationCovariance(h: Matrix, pp: Matrix, r: Matrix, nx: nat, nz: nat): (s: Matrix)
    requires IsMatrix(h, nz, nx) && IsMatrix(pp, nx, nx) && IsMatrix(r, nz, nz)
    ensures IsMatrix(s, nz, nz)
  {
    Add(Mul(Mul(h, pp, nx), Transpose(h, nx), nz), r)
  }

  /** Kalman gain K = P'·Hᵗ·S⁻¹, given the inverse si of S. */
  function Gain(pp: Matrix, h: Matrix, si: Matrix, nx: nat, nz: nat): (k: Matrix)
    requires IsMatrix(pp, nx, nx) && IsMatrix(h, nz, nx) && IsMatrix(si, nz, nz)
    ensures IsMatrix(k, nx, nz)
  {
    Mul(Mul(pp, Transpose(h, nx), nz), si, nz)
  }

  /** Innovation y = z − H·x'. */
  function Innovation(z: Vector, h: Matrix, xp: Vector): (y: Vector)
    requires IsMatrix(h, |z|, |xp|)
    ensures |y| == |z|
  {
    VecSub(z, MatVec(h, xp))
  }

  /** Posterior x = x' + K·y and P = P' − K·H·P'. */
  function Posterior(xp: Vector, pp: Matrix, h: Matrix, k: Matrix, y: Vector, nx: nat): (e: Estimate)
    requires |xp| == nx && IsMatrix(pp, nx, nx) && IsMatrix(h, |y|, nx) && IsMatrix(k, nx, |y|)
    ensures EstimateShapes(e.x, e.p, nx)
  {
    Estimate(VecAdd(xp, MatVec(k, y)), Sub(pp, Mul(Mul(k, h, nx), pp, nx)))
  }

  /** The update stage from a predicted pair (xp, pp) and a measurement z. */
  ghost function Update(xp: Vector, pp: Matrix, h: Matrix, r: Matrix, z: Vector, nx: nat, nz: nat)
    : (res: Result<Estimate>)
    requires |xp| == nx && IsMatrix(pp, nx, nx) && IsMatrix(h, nz, nx) && IsMatrix(r, nz, nz)
    requires |z| == nz
    ensures res.Ok? ==> EstimateShapes(res.value.x, res.value.p, nx)
    ensures res.Err? <==> !Invertible(InnovationCovariance(h, pp, r, nx, nz), nz)
  {
    var s := InnovationCovariance(h, pp, r, nx, nz);
    match TryInverse(s, nz)
    case None => Err(InverseError)
    case Some(si) =>
      var k := Gain(pp, h, si, nx, nz);
      var y := Innovation(z, h, xp);
      Ok(Posterior(xp, pp, h, k, y, nx))
  }

  /** One step of the filter without control input. */
  ghost function Step(x: Vector, p: Matrix, f: Matrix, h: Matrix, q: Matrix, r: Matrix,
                      z: Vector, nx: nat, nz: nat): (res: Result<Estimate>)
    requires EstimateShapes(x, p, nx) && ModelShapes(f, h, q, r, nx, nz) && |z| == nz
    ensures res.Ok? ==> EstimateShapes(res.value.x, res.value.p, nx)
    ensures res.Err? <==> !Invertible(InnovationCovariance(h, PredictCovariance(f, p, q, nx), r, nx, nz), nz)
  {
    Update(PredictState(f, x), PredictCovariance(f, p, q, nx), h, r, z, nx, nz)
  }

  /** One step of the filter with control model b and control input u. */
  ghost function StepControlled(x: Vector, p: Matrix, f: Matrix, b: Matrix, h: Matrix, q: Matrix,
                                r: Matrix, z: Vector, u: Vector, nx: nat, nz: nat)
    : (res: Result<Estimate>)
    requires EstimateShapes(x, p, nx) && ModelShapes(f, h, q, r, nx, nz) && |z| == nz
    requires IsMatrix(b, nx, |u|)
    ensures res.Ok? ==> EstimateShapes(res.value.x, res.value.p, nx)
    ensures res.Err? <==> !Invertible(InnovationCovariance(h, PredictCovariance(f, p, q, nx), r, nx, nz), nz)
  {
    Update(PredictStateControlled(f, x, b, u), PredictCovariance(f, p, q, nx), h, r, z, nx, nz)
  }

  // ---------------------------------------------------------------------
  // Properties of one step
  // ---------------------------------------------------------------------

  /** With any two-sided inverse si of S, the update yields x' + K·y and
      P' − K·H·P' with K = P'·Hᵗ·si: the result does not depend on how the
      inverse is found. */
  lemma {:induction false} UpdateWithInverse(xp: Vector, pp: Matrix, h: Matrix, r: Matrix, z: Vector,
                          si: Matrix, nx: nat, nz: nat)
    requires |xp| == nx && IsMatrix(pp, nx, nx) && IsMatrix(h, nz, nx) && IsMatrix(r, nz, nz)
    requires |z| == nz
    requires IsInverse(InnovationCovariance(h, pp, r, nx, nz), si, nz)
    ensures Update(xp, pp, h, r, z, nx, nz)
         == Ok(Estimate(VecAdd(xp, MatVec(Gain(pp, h, si, nx, nz), VecSub(z, MatVec(h, xp)))),
                        Sub(pp, Mul(Mul(Gain(pp, h, si, nx, nz), h, nx), pp, nx))))
  {
    TryInverseIs(InnovationCovariance(h, pp, r, nx, nz), si, nz);
  }

  /** The step without control is the controlled step whose control term
      B·u vanishes. */
  lemma {:induction false} ControlWithoutEffect(x: Vector, p: Matrix, f: Matrix, b: Matrix, h: Matrix, q: Matrix,
                             r: Matrix, z: Vector, u: Vector, nx: nat, nz: nat)
    requires EstimateShapes(x, p, nx) && ModelShapes(f, h, q, r, nx, nz) && |z| == nz
    requires IsMatrix(b, nx, |u|)
    requires MatVec(b, u) == Zeros(nx)
    ensures StepControlled(x, p, f, b, h, q, r, z, u, nx, nz) == Step(x, p, f, h, q, r, z, nx, nz)
  {
    assert PredictStateControlled(f, x, b, u) == PredictState(f, x);
  }

  /** In particular a zero control input makes both variants agree. */
  lemma {:induction false} ZeroControlInput(x: Vector, p: Matrix, f: Matrix, b: Matrix, h: Matrix, q: Matrix,
                         r: Matrix, z: Vector, nu: nat, nx: nat, nz: nat)
    requires EstimateShapes(x, p, nx) && ModelShapes(f, h, q, r, nx, nz) && |z| == nz
    requires IsMatrix(b, nx, nu)
    ensures StepControlled(x, p, f, b, h, q, r, z, Zeros(nu), nx, nz) == Step(x, p, f, h, q, r, z, nx, nz)
  {
    MatVecZero(b, nu);
    ControlWithoutEffect(x, p, f, b, h, q, r, z, Zeros(nu), nx, nz);
  }

  /** The control input moves only the state: whether the step fails and the
      posterior covariance are the same for every u. */
  lemma {:induction false} CovarianceIgnoresControl(x: Vector, p: Matrix, f: Matrix, b: Matrix, h: Matrix, q: Matrix,
                                 r: Matrix, z: Vector, u1: Vector, u2: Vector, nx: nat, nz: nat)
    requires EstimateShapes(x, p, nx) && ModelShapes(f, h, q, r, nx, nz) && |z| == nz
    requires IsMatrix(b, nx, |u1|) && |u2| == |u1|
    ensures StepControlled(x, p, f, b, h, q, r, z, u1, nx, nz).Err?
        <==> StepControlled(x, p, f, b, h, q, r, z, u2, nx, nz).Err?
    ensures StepControlled(x, p, f, b, h, q, r, z, u1, nx, nz).Ok? ==>
              (StepControlled(x, p, f, b, h, q, r, z, u1, nx, nz).value.p
               == StepControlled(x, p, f, b, h, q, r, z, u2, nx, nz).value.p)
  {
  }

  /** A measurement model and noise that are both zero make S zero, so the
      step fails whenever there is at least one measurement component. */
  lemma {:induction false} ZeroMeasurementFails(x: Vector, p: Matrix, f: Matrix, q: Matrix, z: Vector, nx: nat, nz: nat)
    requires EstimateShapes(x, p, nx) && IsMatrix(f, nx, nx) && IsMatrix(q, nx, nx) && |z| == nz
    requires nz > 0
    ensures Step(x, p, f, ZeroMatrix(nz, nx), q, ZeroMatrix(nz, nz), z, nx, nz) == Err(InverseError)
  {
    var h, pp := ZeroMatrix(nz, nx), PredictCovariance(f, p, q, nx);
    ZeroMulLeft(nz, pp, nx);
    ZeroMulLeft(nz, Transpose(h, nx), nz);
    MatrixExt(Add(ZeroMatrix(nz, nz), ZeroMatrix(nz, nz)), ZeroMatrix(nz, nz), nz, nz);
    ZeroNotInvertible(nz);
  }

  // ---------------------------------------------------------------------
  // The scalar filter (nx = nz = 1)
  // ---------------------------------------------------------------------

  lemma ScalarPredict(x: real, p: real, f: real, q: real, xp: real, pp: real)
    requires xp == f * x && pp == f * p * f + q
    ensures PredictState([[f]], [x]) == [xp]
    ensures PredictCovariance([[f]], [[p]], [[q]], 1) == [[pp]]
  {
    var fp := f * p;
    var fpf := fp * f;
    ScalarMatVec(f, x, xp);
    ScalarMul(f, p, fp);
    ScalarTranspose(f);
    ScalarMul(fp, f, fpf);
    ScalarAdd(fpf, q, pp);
  }

  lemma ScalarInnovationCovariance(pp: real, h: real, r: real, s: real)
    requires s == h * pp * h + r
    ensures InnovationCovariance([[h]], [[pp]], [[r]], 1, 1) == [[s]]
  {
    var hp := h * pp;
    var hph := hp * h;
    ScalarMul(h, pp, hp);
    ScalarTranspose(h);
    ScalarMul(hp, h, hph);
    ScalarAdd(hph, r, s);
  }

  lemma ScalarGain(pp: real, h: real, si: real, k: real)
    requires k == pp * h * si
    ensures Gain([[pp]], [[h]], [[si]], 1, 1) == [[k]]
  {
    var ph := pp * h;
    ScalarTranspose(h);
    ScalarMul(pp, h, ph);
    ScalarMul(ph, si, k);
  }

  lemma ScalarInnovation(z: real, h: real, xp: real, y: real)
    requires y == z - h * xp
    ensures Innovation([z], [[h]], [xp]) == [y]
  {
    var hx := h * xp;
    ScalarMatVec(h, xp, hx);
    ScalarSub(z, hx, y);
  }

  lemma ScalarPosterior(xp: real, pp: real, h: real, k: real, y: real, x1: real, p1: real)
    requires x1 == xp + k * y && p1 == pp - k * h * pp
    ensures Posterior([xp], [[pp]], [[h]], [[k]], [y], 1) == Estimate([x1], [[p1]])
  {
    var ky := k * y;
    var kh := k * h;
    var khp := kh * pp;
    ScalarMatVec(k, y, ky);
    ScalarAdd(xp, ky, x1);
    ScalarMul(k, h, kh);
    ScalarMul(kh, pp, khp);
    ScalarSub(pp, khp, p1);
  }

  /** With 1 x 1 matrices the update is the scalar recursion: it fails
      exactly when s = h·P'·h + r is zero, and otherwise, with gain
      k = P'·h / s, gives x = x' + k·(z − h·x') and P = P' − k·h·P'. */
  lemma ScalarUpdate(xp: real, pp: real, h: real, r: real, z: real)
    ensures var res := Update([xp], [[pp]], [[h]], [[r]], [z], 1, 1);
            var s := h * pp * h + r;
      (res.Err? <==> s == 0.0) &&
      (res.Ok? ==> var k := pp * h * (1.0 / s);
                   res.value.x[0] == xp + k * (z - h * xp) && res.value.p[0][0] == pp - k * h * pp)
  {
    var s := h * pp * h + r;
    ScalarInnovationCovariance(pp, h, r, s);
    ScalarInvertible(s);
    if s != 0.0 {
      var si := 1.0 / s;
      var k := pp * h * si;
      var y := z - h * xp;
      ScalarTryInverse(s, si);
      ScalarGain(pp, h, si, k);
      ScalarInnovation(z, h, xp, y);
      ScalarPosterior(xp, pp, h, k, y, xp + k * y, pp - k * h * pp);
    }
  }

  /** The scalar step, with predicted state xp = f·x and covariance pp = f·p·f + q. */
  lemma ScalarStep(x: real, p: real, f: real, h: real, q: real, r: real, z: real, xp: real, pp: real)
    requires xp == f * x && pp == f * p * f + q
    ensures var res := Step([x], [[p]], [[f]], [[h]], [[q]], [[r]], [z], 1, 1);
            var s := h * pp * h + r;
      (res.Err? <==> s == 0.0) &&
      (res.Ok? ==> var k := pp * h * (1.0 / s);
                   res.value.x[0] == xp + k * (z - h * xp) && res.value.p[0][0] == pp - k * h * pp)
  {
    ScalarPredict(x, p, f, q, xp, pp);
    ScalarUpdate(xp, pp, h, r, z);
  }

  /** The scalar controlled step, with xp = f·x + b·u and pp = f·p·f + q. */
  lemma ScalarStepControlled(x: real, p: real, f: real, b: real, h: real, q: real, r: real,
                             z: real, u: real, xp: real, pp: real)
    requires xp == f * x + b * u && pp == f * p * f + q
    ensures var res := StepControlled([x], [[p]], [[f]], [[b]], [[h]], [[q]], [[r]], [z], [u], 1, 1);
            var s := h * pp * h + r;
      (res.Err? <==> s == 0.0) &&
      (res.Ok? ==> var k := pp * h * (1.0 / s);
                   res.value.x[0] == xp + k * (z - h * xp) && res.value.p[0][0] == pp - k * h * pp)
  {
    var fx, bu := f * x, b * u;
    ScalarPredict(x, p, f, q, fx, pp);
    ScalarMatVec(b, u, bu);
    ScalarAdd(fx, bu, xp);
    ScalarUpdate(xp, pp, h, r, z);
  }

  /** An estimate of the scalar filter is determined by its two entries. */
  lemma {:induction false} ScalarEstimate(e: Estimate, x: real, p: real)
    requires EstimateShapes(e.x, e.p, 1) && e.x[0] == x && e.p[0][0] == p
    ensures e == Estimate([x], [[p]])
  {
    assert e.x == [x];
    assert e.p[0] == [p];
  }

  /** x = 1, P = 1, F = 1, H = 1, Q = 0, R = 1 and z = 2 give x = 1.5, P = 0.5. */
  lemma OneDimensionalExample()
    ensures Step([1.0], [[1.0]], [[1.0]], [[1.0]], [[0.0]], [[1.0]], [2.0], 1, 1)
         == Ok(Estimate([1.5], [[0.5]]))
  {
    var res := Step([1.0], [[1.0]], [[1.0]], [[1.0]], [[0.0]], [[1.0]], [2.0], 1, 1);
    ScalarStep(1.0, 1.0, 1.0, 1.0, 0.0, 1.0, 2.0, 1.0, 1.0);
    assert 1.0 * 1.0 * 1.0 + 1.0 == 2.0 && 1.0 * 1.0 * (1.0 / 2.0) == 0.5;
    ScalarEstimate(res.value, 1.5, 0.5);
  }

  /** The same with B = 1 and u = 1 gives x = 2, P = 0.5. */
  lemma OneDimensionalControlExample()
    ensures StepControlled([1.0], [[1.0]], [[1.0]], [[1.0]], [[1.0]], [[0.0]], [[1.0]], [2.0], [1.0], 1, 1)
         == Ok(Estimate([2.0], [[0.5]]))
  {
    var res := StepControlled([1.0], [[1.0]], [[1.0]], [[1.0]], [[1.0]], [[0.0]], [[1.0]], [2.0], [1.0], 1, 1);
    ScalarStepControlled(1.0, 1.0, 1.0, 1.0, 1.0, 0.0, 1.0, 2.0, 1.0, 2.0, 1.0);
    assert 1.0 * 1.0 * 1.0 + 1.0 == 2.0 && 1.0 * 1.0 * (1.0 / 2.0) == 0.5;
    ScalarEstimate(res.value, 2.0, 0.5);
  }
}
