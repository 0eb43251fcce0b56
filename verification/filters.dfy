/**
 * The two filter objects. Each stores the estimate (x, P) and the fixed
 * model matrices; run overwrites x and P with the posterior estimate and
 * returns it, or reports InverseError and leaves the object as it was.
 *
 * The dimensions, which the original carries as type parameters, are the
 * constants nz, nx (and nu); Valid() is the shape invariant those type
 * parameters guarantee. The stored matrices are ghost fields and run is a
 * ghost method because each step inverts S with Inversion.TryInverse, a
 * specification of the inversion routine rather than an implementation.
 */
module Filters {
  import opened Matrices
  import opened Inversion
  import opened Kalman

  /** Kalman filter without control input. */
  class Filter {
    const nz: nat
    const nx: nat
    /** state estimate */
    ghost var x: Vector
    /** state covariance */
    ghost var p: Matrix
    /** system model */
    ghost var f: Matrix
    /** measurement noise covariance */
    ghost var r: Matrix
    /** measurement function */
    ghost var h: Matrix
    /** process noise covariance */
    ghost var q: Matrix

    ghost predicate Valid()
      reads this
    {
      EstimateShapes(x, p, nx) && ModelShapes(f, h, q, r, nx, nz)
    }

    constructor (nz: nat, nx: nat, x: Vector, p: Matrix, f: Matrix, r: Matrix, h: Matrix, q: Matrix)
      requires EstimateShapes(x, p, nx) && ModelShapes(f, h, q, r, nx, nz)
      ensures Valid()
      ensures this.nz == nz && this.nx == nx
      ensures this.x == x && this.p == p
      ensures this.f == f && this.r == r && this.h == h && this.q == q
    {
      this.nz, this.nx := nz, nx;
      this.x, this.p := x, p;
      this.f, this.r, this.h, this.q := f, r, h, q;
    }

    /** Predict from the stored estimate, correct with z, store and return
        the posterior. */
    ghost method Run(z: Vector) returns (res: Result<Estimate>)
      requires Valid() && |z| == nz
      modifies this
      ensures Valid()
      ensures f == old(f) && r == old(r) && h == old(h) && q == old(q)
      ensures res == Step(old(x), old(p), f, h, q, r, z, nx, nz)
      ensures res.Ok? ==> x == res.value.x && p == res.value.p
      ensures res.Err? ==> x == old(x) && p == old(p)
    {
      var xp := PredictState(f, x);
      var pp := PredictCovariance(f, p, q, nx);
      assert Step(x, p, f, h, q, r, z, nx, nz) == Update(xp, pp, h, r, z, nx, nz);
      var s := InnovationCovariance(h, pp, r, nx, nz);
      match TryInverse(s, nz) {
        case None =>
          res := Err(InverseError);
        case Some(si) =>
          var k := Gain(pp, h, si, nx, nz);
          var y := Innovation(z, h, xp);
          var posterior := Posterior(xp, pp, h, k, y, nx);
          x, p := posterior.x, posterior.p;
          res := Ok(posterior);
      }
    }
  }

  /** Kalman filter with control model b: the predicted state gains B·u. */
  class Filter2 {
    const nz: nat
    const nx: nat
    const nu: nat
    /** state estimate */
    ghost var x: Vector
    /** state covariance */
    ghost var p: Matrix
    /** system model */
    ghost var f: Matrix
    /** control function */
    ghost var b: Matrix
    /** measurement noise covariance */
    ghost var r: Matrix
    /** measurement function */
    ghost var h: Matrix
    /** process noise covariance */
    ghost var q: Matrix

    ghost predicate Valid()
      reads this
    {
      EstimateShapes(x, p, nx) && ModelShapes(f, h, q, r, nx, nz) && IsMatrix(b, nx, nu)
    }

    constructor (nz: nat, nx: nat, nu: nat, x: Vector, p: Matrix, f: Matrix, b: Matrix,
                 r: Matrix, h: Matrix, q: Matrix)
      requires EstimateShapes(x, p, nx) && ModelShapes(f, h, q, r, nx, nz) && IsMatrix(b, nx, nu)
      ensures Valid()
      ensures this.nz == nz && this.nx == nx && this.nu == nu
      ensures this.x == x && this.p == p
      ensures this.f == f && this.b == b && this.r == r && this.h == h && this.q == q
    {
      this.nz, this.nx, this.nu := nz, nx, nu;
      this.x, this.p := x, p;
      this.f, this.b, this.r, this.h, this.q := f, b, r, h, q;
    }

    /** Predict from the stored estimate and control input u, correct with z,
        store and return the posterior. */
    ghost method Run(z: Vector, u: Vector) returns (res: Result<Estimate>)
      requires Valid() && |z| == nz && |u| == nu
      modifies this
      ensures Valid()
      ensures f == old(f) && b == old(b) && r == old(r) && h == old(h) && q == old(q)
      ensures res == StepControlled(old(x), old(p), f, b, h, q, r, z, u, nx, nz)
      ensures res.Ok? ==> x == res.value.x && p == res.value.p
      ensures res.Err? ==> x == old(x) && p == old(p)
    {
      var xp := PredictStateControlled(f, x, b, u);
      var pp := PredictCovariance(f, p, q, nx);
      assert StepControlled(x, p, f, b, h, q, r, z, u, nx, nz) == Update(xp, pp, h, r, z, nx, nz);
      var s := InnovationCovariance(h, pp, r, nx, nz);
      match TryInverse(s, nz) {
        case None =>
          res := Err(InverseError);
        case Some(si) =>
          var k := Gain(pp, h, si, nx, nz);
          var y := Innovation(z, h, xp);
          var posterior := Posterior(xp, pp, h, k, y, nx);
          x, p := posterior.x, posterior.p;
          res := Ok(posterior);
      }
    }
  }

  /** A client of Filter: the one-dimensional run stores and returns the
      posterior x = 1.5, P = 0.5. */
  method OneDimensionalClient()
  {
    var filter := new Filter(1, 1, [1.0], [[1.0]], [[1.0]], [[1.0]], [[1.0]], [[0.0]]);
    ghost var res := filter.Run([2.0]);
    OneDimensionalExample();
    assert filter.x == [1.5] && filter.p == [[0.5]];
  }

  /** A client of Filter: with H = 0 and R = 0 the innovation covariance is
      zero, the run reports InverseError and the estimate stays in place. */
  method SingularClient()
  {
    var filter := new Filter(1, 1, [1.0], [[1.0]], [[1.0]], [[0.0]], [[0.0]], [[0.0]]);
    assert ZeroMatrix(1, 1) == [[0.0]] by {
      assert Zeros(1) == [0.0];
    }
    ZeroMeasurementFails([1.0], [[1.0]], [[1.0]], [[0.0]], [2.0], 1, 1);
    ghost var res := filter.Run([2.0]);
    assert res == Err(InverseError);
    assert filter.x == [1.0] && filter.p == [[1.0]];
  }
}
