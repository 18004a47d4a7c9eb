/**
 * Polynomials of degree at most four with real coefficients, their values and
 * their derivatives, and the finite-difference identities of the four central
 * stencils at a point with unit spacing. These are the facts behind the
 * exactness of each stencil on low-degree polynomial data.
 */
module Polynomials {

  /** c0 + c1 x + c2 x^2 + c3 x^3 + c4 x^4 */
  datatype Poly = Poly(c0: real, c1: real, c2: real, c3: real, c4: real)

  function Eval(p: Poly, x: real): real
  {
    p.c0 + x * (p.c1 + x * (p.c2 + x * (p.c3 + x * p.c4)))
  }

  /** The derivative, term by term. */
  function Deriv(p: Poly): Poly
  {
    Poly(p.c1, 2.0 * p.c2, 3.0 * p.c3, 4.0 * p.c4, 0.0)
  }

  /** The polynomial p(x + h), expanded in powers of x (Taylor's formula at h). */
  function Shift(p: Poly, h: real): Poly
  {
    Poly(Eval(p, h),
         p.c1 + h * (2.0 * p.c2 + h * (3.0 * p.c3 + h * 4.0 * p.c4)),
         p.c2 + h * (3.0 * p.c3 + h * 6.0 * p.c4),
         p.c3 + h * 4.0 * p.c4,
         p.c4)
  }

  lemma ShiftEval(p: Poly, h: real, x: real)
    ensures Eval(p, x + h) == Eval(Shift(p, h), x)
  {
  }

  /** The central first difference is exact for degree two. */
  lemma CentralFirstDifference(p: Poly, x: real)
    requires p.c3 == 0.0 && p.c4 == 0.0
    ensures Eval(p, x + 1.0) - Eval(p, x - 1.0) == 2.0 * Eval(Deriv(p), x)
  {
    ShiftEval(p, 1.0, x);
    ShiftEval(p, -1.0, x);
  }

  /** The central second difference is exact for degree three. */
  lemma CentralSecondDifference(p: Poly, x: real)
    requires p.c4 == 0.0
    ensures Eval(p, x + 1.0) - 2.0 * Eval(p, x) + Eval(p, x - 1.0) == Eval(Deriv(Deriv(p)), x)
  {
    ShiftEval(p, 1.0, x);
    ShiftEval(p, -1.0, x);
  }

  /** The central third difference is exact for degree four. */
  lemma CentralThirdDifference(p: Poly, x: real)
    ensures Eval(p, x + 2.0) - 2.0 * Eval(p, x + 1.0) + 2.0 * Eval(p, x - 1.0) - Eval(p, x - 2.0)
         == 2.0 * Eval(Deriv(Deriv(Deriv(p))), x)
  {
    ShiftEval(p, 2.0, x);
    ShiftEval(p, 1.0, x);
    ShiftEval(p, -1.0, x);
    ShiftEval(p, -2.0, x);
  }

  /** The central fourth difference is exact for degree four. */
  lemma CentralFourthDifference(p: Poly, x: real)
    ensures Eval(p, x + 2.0) - 4.0 * Eval(p, x + 1.0) + 6.0 * Eval(p, x) - 4.0 * Eval(p, x - 1.0) + Eval(p, x - 2.0)
         == Eval(Deriv(Deriv(Deriv(Deriv(p)))), x)
  {
    ShiftEval(p, 2.0, x);
    ShiftEval(p, 1.0, x);
    ShiftEval(p, -1.0, x);
    ShiftEval(p, -2.0, x);
  }
}
