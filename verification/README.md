# Kalman filter model (kf-rs `src/filter.rs`)

This project models the two linear Kalman filters of kf-rs and proves
properties of the model in Dafny.

- `Filter` holds a state estimate `x` and a covariance `P`. It also holds the
  fixed model matrices: the system model `F`, the measurement function `H`,
  the process noise `Q` and the measurement noise `R`.
- `Filter2` holds the same, plus a control matrix `B`.

Each call to `run` does one step of the filter. It predicts `x' = F·x`, or
`x' = F·x + B·u` for `Filter2`, and `P' = F·P·Fᵗ + Q`. Then it corrects with
a measurement `z`. It forms the innovation covariance `S = H·P'·Hᵗ + R`, the
gain `K = P'·Hᵗ·S⁻¹` and the innovation `y = z − H·x'`. Finally it stores and
returns `x = x' + K·y` and `P = P' − K·H·P'`.

How the model is organised:

- `matrices.dfy` (module `Matrices`): vectors and matrices as sequences of
  reals, with the operations the step uses. These are the product, transpose,
  sum, difference and matrix-vector product. It also holds the algebraic laws
  the proofs need: associativity of the product and the identity laws.
- `inversion.dfy` (module `Inversion`): the inversion routine as a
  specification. `TryInverse` returns a two-sided inverse exactly when one
  exists, and `InverseUnique` shows there is only one.
- `kalman.dfy` (module `Kalman`): the step as pure functions, from the
  prediction through the update. `Step` is the step of `Filter` and
  `StepControlled` the step of `Filter2`. The properties relating the two
  variants are lemmas here, as are the worked one-dimensional cases.
- `filters.dfy` (module `Filters`): the two objects as classes.
  - The constructor stores its arguments.
  - `Run` changes only `x` and `P`. Its result is `Step`, or
    `StepControlled`, applied to the state held before the call.
  - On success the new `x` and `P` equal the returned pair. On failure they
    are unchanged.
  - Two small clients run the one-dimensional and the singular scenarios
    against the objects.

The dimensions are generic type parameters in the original. Here they are
the constants `nz`, `nx` and `nu` of each object. `Valid()` is the shape
invariant those type parameters guarantee.

The original unwraps the inverse, so a singular `S` makes the call panic. That
panic happens before either field is assigned. The model reports it as
`Err(InverseError)` and leaves the object unchanged.

The stored matrices are ghost fields and `Run` is a ghost method. This is
because the step calls `TryInverse`, which is a specification and has no
implementation.

## Model

| member | source | states |
|---|---|---|
| Filters.Filter.constructor | src/filter.rs:43-45 | stores the initial estimate and the four model matrices unchanged; the shape invariant holds |
| Filters.Filter.Run | src/filter.rs:47-58 | result is the filter step applied to the estimate held before the call; F, R, H, Q are unchanged; on success the stored x, P equal the returned pair; when S has no inverse the result is InverseError and x, P are unchanged; the shape invariant is kept |
| Filters.Filter2.constructor | src/filter.rs:107-109 | stores the initial estimate and the five model matrices unchanged; the shape invariant holds |
| Filters.Filter2.Run | src/filter.rs:111-122 | as Filter.Run, but with the controlled step for z and u; B is unchanged as well |
| Kalman.PredictState | src/filter.rs:49 | the predicted state F·x has the state's dimension |
| Kalman.PredictStateControlled | src/filter.rs:113 | the predicted state F·x + B·u has the state's dimension |
| Kalman.PredictCovariance | src/filter.rs:50 | the predicted covariance (F·P)·Fᵗ + Q is nx × nx |
| Kalman.InnovationCovariance | src/filter.rs:52 | S = (H·P')·Hᵗ + R is nz × nz |
| Kalman.Gain | src/filter.rs:53 | K = (P'·Hᵗ)·S⁻¹ is nx × nz |
| Kalman.Innovation | src/filter.rs:54 | y = z − H·x' has the measurement's dimension |
| Kalman.Posterior | src/filter.rs:55-56 | x' + K·y is a state vector and P' − (K·H)·P' is nx × nx |
| Kalman.Update | src/filter.rs:52-56 | the update fails exactly when S has no inverse; on success the posterior has the state's shapes |
| Kalman.Step | src/filter.rs:49-56 | the step fails exactly when S, built from the predicted covariance, has no inverse; on success the shapes are preserved |
| Kalman.StepControlled | src/filter.rs:113-120 | as Step, with the control term in the predicted state |
| Kalman.UpdateWithInverse | src/filter.rs:52-56 | for any inverse of S, the update equals the posterior built with the gain from that inverse |
| Kalman.ControlWithoutEffect | src/filter.rs:111-121 | when B·u is the zero vector, the controlled step equals the uncontrolled step |
| Kalman.ZeroControlInput | src/filter.rs:113 | with u = 0 the controlled step equals the uncontrolled step, for every B |
| Kalman.CovarianceIgnoresControl | src/filter.rs:113-120 | for any two control inputs of the same length, the steps succeed or fail together and give the same posterior covariance |
| Kalman.ZeroMeasurementFails | src/filter.rs:52-53 | with H = 0 and R = 0 (nz > 0) the step fails with InverseError, for every estimate, F and Q |
| Kalman.ScalarPredict | src/filter.rs:49-50 | in one dimension the prediction is x' = f·x and P' = f·p·f + q |
| Kalman.ScalarInnovationCovariance | src/filter.rs:52 | in one dimension S = h·P'·h + r |
| Kalman.ScalarGain | src/filter.rs:53 | in one dimension K = P'·h·S⁻¹ |
| Kalman.ScalarInnovation | src/filter.rs:54 | in one dimension y = z − h·x' |
| Kalman.ScalarPosterior | src/filter.rs:55-56 | in one dimension x = x' + K·y and P = P' − K·h·P' |
| Kalman.ScalarUpdate | src/filter.rs:52-56 | in one dimension the update fails exactly when S = h·P'·h + r is zero; otherwise x = x' + K(z − h·x') and P = P' − K·h·P' with K = P'·h/S |
| Kalman.ScalarStep | src/filter.rs:49-56 | in one dimension the step is the scalar update applied to x' = f·x and P' = f·p·f + q |
| Kalman.ScalarStepControlled | src/filter.rs:113-120 | in one dimension the controlled step is the scalar update applied to x' = f·x + b·u and P' = f·p·f + q |
| Kalman.OneDimensionalExample | src/filter.rs:49-56 | x = 1, P = 1, F = 1, H = 1, Q = 0, R = 1, z = 2 gives x = 1.5, P = 0.5 |
| Kalman.OneDimensionalControlExample | src/filter.rs:113-120 | the same with B = 1, u = 1 gives x = 2, P = 0.5 |
| Inversion.TryInverse | src/filter.rs:53 | returns a value exactly when S is invertible, and the value is a two-sided inverse of S |
| Inversion.InverseUnique | src/filter.rs:53 | two two-sided inverses of the same matrix are equal, so the inverse is determined |
| Inversion.TryInverseIs | src/filter.rs:53 | whenever si is a two-sided inverse of S, the inversion returns exactly si |
| Inversion.ZeroNotInvertible | src/filter.rs:53 | a square zero matrix of positive size has no inverse, and the inversion fails on it |
| Inversion.ScalarTryInverse | src/filter.rs:53 | a 1 × 1 matrix [c] with c·d = 1 has inverse [d] |
| Inversion.ScalarInvertible | src/filter.rs:53 | a 1 × 1 matrix is invertible exactly when its entry is non-zero |

## Left out

- Floating point: all arithmetic is on exact reals. Rounding, overflow and NaN are not modelled.
- Inversion.TryInverse: specified abstractly, not computed. It fails exactly when S has no exact inverse. The library routine can also fail on a near-singular S. That numerical failure is not modelled, and neither is the inverse it computes approximately.
- Filters.Filter.Run and Filters.Filter2.Run: a singular S makes the original panic at the unwrap. The model returns `Err(InverseError)` instead. Neither field has been assigned at that point in either version.
- Filters.Filter.Run and Filters.Filter2.Run: they are ghost, and the matrices are ghost fields, because the inversion is a specification. No compiled filter is produced.
- The type-level dimensions and allocator bounds (src/filter.rs:5-15, 31-42, 60-74, 91-106) become the `nz`, `nx`, `nu` constants and the `Valid()` shape invariant.
- The stage functions (`PredictState` through `Posterior`): each `ensures` states only shapes. Their values are stated through `Step`, `UpdateWithInverse` and the scalar lemmas.
- Cloning the returned pair: values are immutable here, so the returned estimate is simply equal to the stored one.
- Analytic properties: trace non-increase of the covariance and convergence are not part of this model. They depend on R, Q and P being symmetric positive-definite. The source never checks that, and neither does the model.
- Setters for x and P, and returning y, S and S⁻¹ as diagnostics: src/filter.rs does not define them, so they are not modelled.
