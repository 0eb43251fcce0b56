/**
 * Matrix inversion as a specified operation. The linear-algebra library's
 * `try_inverse` either fails or returns a two-sided inverse; how it finds
 * one is not part of this model. TryInverse picks a two-sided inverse when
 * one exists, and InverseUnique shows that there is only one to pick, so the
 * choice determines the result completely.
 */
module Inversion {
  import opened Matrices

  datatype Option<T> = None | Some(value: T)

  /** si is a two-sided inverse of the n x n matrix s. */
  predicate IsInverse(s: Matrix, si: Matrix, n: nat) {
    IsMatrix(s, n, n) && IsMatrix(si, n, n) &&
    Mul(s, si, n) == Identity(n) && Mul(si, s, n) == Identity(n)
  }

  ghost predicate Invertible(s: Matrix, n: nat) {
    exists si :: IsInverse(s, si, n)
  }

  /** The inverse of s, or None when s has none. */
  ghost function TryInverse(s: Matrix, n: nat): (r: Option<Matrix>)
    requires IsMatrix(s, n, n)
    ensures r.Some? <==> Invertible(s, n)
    ensures r.Some? ==> IsInverse(s, r.value, n)
  {
    if Invertible(s, n) then Some(var si :| IsInverse(s, si, n); si) else None
  }

  /** A matrix has at most one two-sided inverse. */
  lemma {:induction false} InverseUnique(s: Matrix, a: Matrix, b: Matrix, n: nat)
    requires IsInverse(s, a, n) && IsInverse(s, b, n)
    ensures a == b
  {
    calc {
      a;
      { MulIdentityRight(a, n); }
      Mul(a, Identity(n), n);
      Mul(a, Mul(s, b, n), n);
      { MulAssoc(a, s, b, n); }
      Mul(Mul(a, s, n), b, n);
      Mul(Identity(n), b, n);
      { MulIdentityLeft(b, n); }
      b;
    }
  }

  /** Whatever inverse is known, TryInverse returns exactly that one. */
  lemma {:induction false} TryInverseIs(s: Matrix, si: Matrix, n: nat)
    requires IsInverse(s, si, n)
    ensures TryInverse(s, n) == Some(si)
  {
    InverseUnique(s, TryInverse(s, n).value, si, n);
  }

  /** A square zero matrix of positive size has no inverse. */
  lemma {:induction false} ZeroNotInvertible(n: nat)
    requires n > 0
    ensures !Invertible(ZeroMatrix(n, n), n)
    ensures TryInverse(ZeroMatrix(n, n), n) == None
  {
    var z := ZeroMatrix(n, n);
    forall si | IsMatrix(si, n, n) ensures Mul(z, si, n) != Identity(n) {
      ZeroMulLeft(n, si, n);
      assert Mul(z, si, n)[0][0] != Identity(n)[0][0];
    }
  }

  /** The reciprocal of a 1 x 1 matrix is its inverse. */
  lemma ScalarTryInverse(c: real, d: real)
    requires c * d == 1.0
    ensures TryInverse([[c]], 1) == Some([[d]])
  {
    assert Identity(1) == [[1.0]] by {
      assert Unit(1, 0) == [1.0];
    }
    ScalarMul(c, d, 1.0);
    ScalarMul(d, c, 1.0);
    TryInverseIs([[c]], [[d]], 1);
  }

  /** A 1 x 1 matrix is invertible exactly when its entry is non-zero. */
  lemma ScalarInvertible(c: real)
    ensures Invertible([[c]], 1) <==> c != 0.0
  {
    if c != 0.0 {
      var d := 1.0 / c;
      ScalarTryInverse(c, d);
    } else {
      assert Identity(1) == [[1.0]] by {
        assert Unit(1, 0) == [1.0];
      }
      forall si | IsMatrix(si, 1, 1) ensures Mul([[c]], si, 1) != Identity(1) {
        var e := si[0][0];
        assert si[0] == [e];
        assert si == [[e]];
        ScalarMul(c, e, 0.0);
      }
    }
  }
}
