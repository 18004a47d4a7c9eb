/**
 * Exactness of the central stencils on polynomial data at interior points.
 *
 * When u holds the values of a polynomial q at the grid indices and the
 * stencil does not wrap around, each operator returns the matching derivative
 * of q exactly, scaled to the spacing: the n-th derivative with respect to the
 * grid index divided by dx^n, which is the n-th derivative in x of the
 * polynomial x |-> q(x / dx). dudx is exact up to degree two, laplacian up to
 * degree three, d3udx3 and d4udx4 up to degree four.
 */
module Exactness {
  import opened Periodic
  import opened Stencil
  import opened Operators
  import opened Polynomials

  /** u[k] is q evaluated at grid index k. */
  predicate SamplesOf(u: seq<real>, q: Poly)
  {
    forall k :: 0 <= k < |u| ==> u[k] == Eval(q, k as real)
  }

  lemma HalveQuotient(a: real, d: real, r: real)
    requires d != 0.0 && r == (2.0 * a) / (2.0 * d)
    ensures r == a / d
  {
  }

  /** dudx is the exact first derivative of quadratic data. */
  lemma DudxExact(u: seq<real>, q: Poly, i: int, dx: real)
    requires 1 <= i && i + 1 < |u| && dx != 0.0
    requires SamplesOf(u, q) && q.c3 == 0.0 && q.c4 == 0.0
    ensures Dudx(u, i, dx) == Eval(Deriv(q), i as real) / dx
  {
    var x := i as real;
    FirstSum(u, i);
    assert u[i + 1] == Eval(q, x + 1.0);
    assert u[i - 1] == Eval(q, x - 1.0);
    CentralFirstDifference(q, x);
    HalveQuotient(Eval(Deriv(q), x), dx, Dudx(u, i, dx));
  }

  /** laplacian is the exact second derivative of cubic data. */
  lemma LaplacianExact(u: seq<real>, q: Poly, i: int, dx: real)
    requires 1 <= i && i + 1 < |u| && dx != 0.0
    requires SamplesOf(u, q) && q.c4 == 0.0
    ensures Laplacian(u, i, dx) == Eval(Deriv(Deriv(q)), i as real) / Power(dx, 2)
  {
    var x := i as real;
    SecondSum(u, i);
    assert u[i + 1] == Eval(q, x + 1.0);
    assert u[i] == Eval(q, x);
    assert u[i - 1] == Eval(q, x - 1.0);
    CentralSecondDifference(q, x);
  }

  /** d3udx3 is the exact third derivative of quartic data. */
  lemma D3udx3Exact(u: seq<real>, q: Poly, i: int, dx: real)
    requires 2 <= i && i + 2 < |u| && dx != 0.0
    requires SamplesOf(u, q)
    ensures D3udx3(u, i, dx) == Eval(Deriv(Deriv(Deriv(q))), i as real) / Power(dx, 3)
  {
    var x := i as real;
    ThirdSum(u, i);
    assert u[i + 2] == Eval(q, x + 2.0);
    assert u[i + 1] == Eval(q, x + 1.0);
    assert u[i - 1] == Eval(q, x - 1.0);
    assert u[i - 2] == Eval(q, x - 2.0);
    CentralThirdDifference(q, x);
    HalveQuotient(Eval(Deriv(Deriv(Deriv(q))), x), Power(dx, 3), D3udx3(u, i, dx));
  }

  /** d4udx4 is the exact fourth derivative of quartic data. */
  lemma D4udx4Exact(u: seq<real>, q: Poly, i: int, dx: real)
    requires 2 <= i && i + 2 < |u| && dx != 0.0
    requires SamplesOf(u, q)
    ensures D4udx4(u, i, dx) == Eval(Deriv(Deriv(Deriv(Deriv(q)))), i as real) / Power(dx, 4)
  {
    var x := i as real;
    FourthSum(u, i);
    assert u[i + 2] == Eval(q, x + 2.0);
    assert u[i + 1] == Eval(q, x + 1.0);
    assert u[i] == Eval(q, x);
    assert u[i - 1] == Eval(q, x - 1.0);
    assert u[i - 2] == Eval(q, x - 2.0);
    CentralFourthDifference(q, x);
  }
}
