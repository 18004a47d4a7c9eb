/**
 * Properties of the four periodic operators: they vanish on constant grids,
 * are linear in the grid values, are periodic in the evaluation index, commute
 * with rotating the grid, and are odd (first and third derivative) or even
 * (second and fourth derivative) under reflecting it.
 */
module OperatorLemmas {
  import opened Periodic
  import opened Stencil
  import opened Operators

  /** The coefficients (1, -1), (1, -2, 1), (1, -2, 2, -1) and (1, -4, 6, -4, 1) each sum to zero. */
  lemma CentralWeightsSumToZero()
    ensures WeightSum(CentralFirst) == 0.0
    ensures WeightSum(CentralSecond) == 0.0
    ensures WeightSum(CentralThird) == 0.0
    ensures WeightSum(CentralFourth) == 0.0
  {
    assert WeightSum([Tap(-1, -1.0)]) == -1.0;
    assert WeightSum([Tap(-1, 1.0)]) == 1.0;
    assert WeightSum([Tap(0, -2.0), Tap(-1, 1.0)]) == -1.0;
    assert WeightSum([Tap(-2, -1.0)]) == -1.0;
    assert WeightSum([Tap(-1, 2.0), Tap(-2, -1.0)]) == 1.0;
    assert WeightSum([Tap(1, -2.0), Tap(-1, 2.0), Tap(-2, -1.0)]) == -1.0;
    assert WeightSum([Tap(-2, 1.0)]) == 1.0;
    assert WeightSum([Tap(-1, -4.0), Tap(-2, 1.0)]) == -3.0;
    assert WeightSum([Tap(0, 6.0), Tap(-1, -4.0), Tap(-2, 1.0)]) == 3.0;
    assert WeightSum([Tap(1, -4.0), Tap(0, 6.0), Tap(-1, -4.0), Tap(-2, 1.0)]) == -1.0;
  }

  // ---------------------------------------------------------------------------
  // Constant grids

  lemma DudxConstant(u: seq<real>, c: real, i: int, dx: real)
    requires |u| >= 1 && dx != 0.0 && Constant(u, c)
    ensures Dudx(u, i, dx) == 0.0
  {
    ApplyConstant(CentralFirst, u, c, i);
    CentralWeightsSumToZero();
    assert 2.0 * dx != 0.0;
  }

  lemma LaplacianConstant(u: seq<real>, c: real, i: int, dx: real)
    requires 0 <= i < |u| && dx != 0.0 && Constant(u, c)
    ensures Laplacian(u, i, dx) == 0.0
  {
    ApplyConstant(CentralSecond, u, c, i);
    CentralWeightsSumToZero();
    assert Power(dx, 2) != 0.0;
  }

  lemma D3udx3Constant(u: seq<real>, c: real, i: int, dx: real)
    requires |u| >= 1 && dx != 0.0 && Constant(u, c)
    ensures D3udx3(u, i, dx) == 0.0
  {
    ApplyConstant(CentralThird, u, c, i);
    CentralWeightsSumToZero();
    assert 2.0 * Power(dx, 3) != 0.0;
  }

  lemma D4udx4Constant(u: seq<real>, c: real, i: int, dx: real)
    requires 0 <= i < |u| && dx != 0.0 && Constant(u, c)
    ensures D4udx4(u, i, dx) == 0.0
  {
    ApplyConstant(CentralFourth, u, c, i);
    CentralWeightsSumToZero();
    assert Power(dx, 4) != 0.0;
  }

  // ---------------------------------------------------------------------------
  // Linearity in u

  /** r, p and q are the quotients by d of a * x + b * y, x and y. */
  lemma QuotientLinear(a: real, x: real, b: real, y: real, d: real, r: real, p: real, q: real)
    requires d != 0.0 && r == (a * x + b * y) / d && p == x / d && q == y / d
    ensures r == a * p + b * q
  {
    assert (a * x + b * y) / d == (a * x) / d + (b * y) / d;
  }

  lemma DudxLinear(a: real, u: seq<real>, b: real, v: seq<real>, i: int, dx: real)
    requires |u| >= 1 && |u| == |v| && dx != 0.0
    ensures Dudx(Combine(a, u, b, v), i, dx) == a * Dudx(u, i, dx) + b * Dudx(v, i, dx)
  {
    var w := Combine(a, u, b, v);
    var x, y := Apply(CentralFirst, u, i), Apply(CentralFirst, v, i);
    assert Apply(CentralFirst, w, i) == a * x + b * y by {
      ApplyLinear(CentralFirst, a, u, b, v, i);
    }
    QuotientLinear(a, x, b, y, 2.0 * dx, Dudx(w, i, dx), Dudx(u, i, dx), Dudx(v, i, dx));
  }

  lemma LaplacianLinear(a: real, u: seq<real>, b: real, v: seq<real>, i: int, dx: real)
    requires 0 <= i < |u| && |u| == |v| && dx != 0.0
    ensures Laplacian(Combine(a, u, b, v), i, dx) == a * Laplacian(u, i, dx) + b * Laplacian(v, i, dx)
  {
    var w := Combine(a, u, b, v);
    var x, y := Apply(CentralSecond, u, i), Apply(CentralSecond, v, i);
    assert Apply(CentralSecond, w, i) == a * x + b * y by {
      ApplyLinear(CentralSecond, a, u, b, v, i);
    }
    QuotientLinear(a, x, b, y, Power(dx, 2), Laplacian(w, i, dx), Laplacian(u, i, dx), Laplacian(v, i, dx));
  }

  lemma D3udx3Linear(a: real, u: seq<real>, b: real, v: seq<real>, i: int, dx: real)
    requires |u| >= 1 && |u| == |v| && dx != 0.0
    ensures D3udx3(Combine(a, u, b, v), i, dx) == a * D3udx3(u, i, dx) + b * D3udx3(v, i, dx)
  {
    var w := Combine(a, u, b, v);
    var x, y := Apply(CentralThird, u, i), Apply(CentralThird, v, i);
    assert Apply(CentralThird, w, i) == a * x + b * y by {
      ApplyLinear(CentralThird, a, u, b, v, i);
    }
    QuotientLinear(a, x, b, y, 2.0 * Power(dx, 3), D3udx3(w, i, dx), D3udx3(u, i, dx), D3udx3(v, i, dx));
  }

  lemma D4udx4Linear(a: real, u: seq<real>, b: real, v: seq<real>, i: int, dx: real)
    requires 0 <= i < |u| && |u| == |v| && dx != 0.0
    ensures D4udx4(Combine(a, u, b, v), i, dx) == a * D4udx4(u, i, dx) + b * D4udx4(v, i, dx)
  {
    var w := Combine(a, u, b, v);
    var x, y := Apply(CentralFourth, u, i), Apply(CentralFourth, v, i);
    assert Apply(CentralFourth, w, i) == a * x + b * y by {
      ApplyLinear(CentralFourth, a, u, b, v, i);
    }
    QuotientLinear(a, x, b, y, Power(dx, 4), D4udx4(w, i, dx), D4udx4(u, i, dx), D4udx4(v, i, dx));
  }

  // ---------------------------------------------------------------------------
  // Multiplying by the denominator recovers the bare integer-coefficient sum

  lemma TimesDivisor(a: real, d: real, r: real)
    requires d != 0.0 && r == a / d
    ensures r * d == a
  {
  }

  lemma DudxScaled(u: seq<real>, i: int, dx: real)
    requires |u| >= 1 && dx != 0.0
    ensures Dudx(u, i, dx) * (2.0 * dx) == u[Wrap(i + 1, |u|)] - u[Wrap(i - 1, |u|)]
  {
    FirstSum(u, i);
    TimesDivisor(Apply(CentralFirst, u, i), 2.0 * dx, Dudx(u, i, dx));
  }

  lemma LaplacianScaled(u: seq<real>, i: int, dx: real)
    requires 0 <= i < |u| && dx != 0.0
    ensures Laplacian(u, i, dx) * Power(dx, 2) == u[Wrap(i + 1, |u|)] - 2.0 * u[i] + u[Wrap(i - 1, |u|)]
  {
    SecondSum(u, i);
    TimesDivisor(Apply(CentralSecond, u, i), Power(dx, 2), Laplacian(u, i, dx));
  }

  lemma D3udx3Scaled(u: seq<real>, i: int, dx: real)
    requires |u| >= 1 && dx != 0.0
    ensures D3udx3(u, i, dx) * (2.0 * Power(dx, 3))
         == u[Wrap(i + 2, |u|)] - 2.0 * u[Wrap(i + 1, |u|)] + 2.0 * u[Wrap(i - 1, |u|)] - u[Wrap(i - 2, |u|)]
  {
    ThirdSum(u, i);
    TimesDivisor(Apply(CentralThird, u, i), 2.0 * Power(dx, 3), D3udx3(u, i, dx));
  }

  /** The two-step wraps of d4udx4 reach (i - 2) mod N and (i + 2) mod N. */
  lemma D4udx4Scaled(u: seq<real>, i: int, dx: real)
    requires 0 <= i < |u| && dx != 0.0
    ensures D4udx4(u, i, dx) * Power(dx, 4)
         == u[Wrap(i + 2, |u|)] - 4.0 * u[Wrap(i + 1, |u|)] + 6.0 * u[i] - 4.0 * u[Wrap(i - 1, |u|)] + u[Wrap(i - 2, |u|)]
  {
    FourthSum(u, i);
    TimesDivisor(Apply(CentralFourth, u, i), Power(dx, 4), D4udx4(u, i, dx));
  }

  // ---------------------------------------------------------------------------
  // Periodicity in the evaluation index (the operators that read only wrapped indices)

  lemma DudxPeriodic(u: seq<real>, i: int, dx: real)
    requires |u| >= 1 && dx != 0.0
    ensures Dudx(u, i + |u|, dx) == Dudx(u, i, dx)
  {
    ApplyPeriodic(CentralFirst, u, i);
  }

  lemma D3udx3Periodic(u: seq<real>, i: int, dx: real)
    requires |u| >= 1 && dx != 0.0
    ensures D3udx3(u, i + |u|, dx) == D3udx3(u, i, dx)
  {
    ApplyPeriodic(CentralThird, u, i);
  }

  /** dudx at any integer index equals dudx at that index's grid point. */
  lemma DudxAtWrap(u: seq<real>, i: int, dx: real)
    requires |u| >= 1 && dx != 0.0
    ensures Dudx(u, Wrap(i, |u|), dx) == Dudx(u, i, dx)
  {
    ApplyAtWrap(CentralFirst, u, i);
  }

  lemma D3udx3AtWrap(u: seq<real>, i: int, dx: real)
    requires |u| >= 1 && dx != 0.0
    ensures D3udx3(u, Wrap(i, |u|), dx) == D3udx3(u, i, dx)
  {
    ApplyAtWrap(CentralThird, u, i);
  }

  // ---------------------------------------------------------------------------
  // Rotating the periodic grid

  lemma DudxRotate(u: seq<real>, m: int, i: int, dx: real)
    requires |u| >= 1 && dx != 0.0
    ensures Dudx(Rotate(u, m), i, dx) == Dudx(u, i + m, dx)
  {
    ApplyRotate(CentralFirst, u, m, i);
  }

  lemma LaplacianRotate(u: seq<real>, m: int, i: int, dx: real)
    requires 0 <= i < |u| && dx != 0.0
    ensures Laplacian(Rotate(u, m), i, dx) == Laplacian(u, Wrap(i + m, |u|), dx)
  {
    ApplyRotate(CentralSecond, u, m, i);
    ApplyAtWrap(CentralSecond, u, i + m);
  }

  lemma D3udx3Rotate(u: seq<real>, m: int, i: int, dx: real)
    requires |u| >= 1 && dx != 0.0
    ensures D3udx3(Rotate(u, m), i, dx) == D3udx3(u, i + m, dx)
  {
    ApplyRotate(CentralThird, u, m, i);
  }

  lemma D4udx4Rotate(u: seq<real>, m: int, i: int, dx: real)
    requires 0 <= i < |u| && dx != 0.0
    ensures D4udx4(Rotate(u, m), i, dx) == D4udx4(u, Wrap(i + m, |u|), dx)
  {
    ApplyRotate(CentralFourth, u, m, i);
    ApplyAtWrap(CentralFourth, u, i + m);
  }

  // ---------------------------------------------------------------------------
  // Reflecting the periodic grid: odd-order central differences change sign,
  // even-order ones do not.

  lemma MirroredFirstSum(u: seq<real>, i: int)
    requires |u| >= 1
    ensures Apply(Mirror(CentralFirst), u, i) == -Apply(CentralFirst, u, i)
  {
    var n := |u|;
    FirstSum(u, i);
    assert Mirror(CentralFirst) == [Tap(-1, 1.0), Tap(1, -1.0)];
    assert Apply([Tap(1, -1.0)], u, i) == -1.0 * u[Wrap(i + 1, n)] + Apply([], u, i);
    assert Apply([Tap(-1, 1.0), Tap(1, -1.0)], u, i) == 1.0 * u[Wrap(i - 1, n)] + Apply([Tap(1, -1.0)], u, i);
  }

  lemma MirroredSecondSum(u: seq<real>, i: int)
    requires |u| >= 1
    ensures Apply(Mirror(CentralSecond), u, i) == Apply(CentralSecond, u, i)
  {
    var n := |u|;
    SecondSum(u, i);
    assert Mirror(CentralSecond) == [Tap(-1, 1.0), Tap(0, -2.0), Tap(1, 1.0)];
    assert Apply([Tap(1, 1.0)], u, i) == 1.0 * u[Wrap(i + 1, n)] + Apply([], u, i);
    assert Apply([Tap(0, -2.0), Tap(1, 1.0)], u, i) == -2.0 * u[Wrap(i, n)] + Apply([Tap(1, 1.0)], u, i);
    assert Apply([Tap(-1, 1.0), Tap(0, -2.0), Tap(1, 1.0)], u, i)
        == 1.0 * u[Wrap(i - 1, n)] + Apply([Tap(0, -2.0), Tap(1, 1.0)], u, i);
  }

  lemma MirroredThirdSum(u: seq<real>, i: int)
    requires |u| >= 1
    ensures Apply(Mirror(CentralThird), u, i) == -Apply(CentralThird, u, i)
  {
    var n := |u|;
    ThirdSum(u, i);
    assert Mirror(CentralThird) == [Tap(-2, 1.0), Tap(-1, -2.0), Tap(1, 2.0), Tap(2, -1.0)];
    assert Apply([Tap(2, -1.0)], u, i) == -1.0 * u[Wrap(i + 2, n)] + Apply([], u, i);
    assert Apply([Tap(1, 2.0), Tap(2, -1.0)], u, i) == 2.0 * u[Wrap(i + 1, n)] + Apply([Tap(2, -1.0)], u, i);
    assert Apply([Tap(-1, -2.0), Tap(1, 2.0), Tap(2, -1.0)], u, i)
        == -2.0 * u[Wrap(i - 1, n)] + Apply([Tap(1, 2.0), Tap(2, -1.0)], u, i);
    assert Apply([Tap(-2, 1.0), Tap(-1, -2.0), Tap(1, 2.0), Tap(2, -1.0)], u, i)
        == 1.0 * u[Wrap(i - 2, n)] + Apply([Tap(-1, -2.0), Tap(1, 2.0), Tap(2, -1.0)], u, i);
  }

  lemma MirroredFourthSum(u: seq<real>, i: int)
    requires |u| >= 1
    ensures Apply(Mirror(CentralFourth), u, i) == Apply(CentralFourth, u, i)
  {
    var n := |u|;
    FourthSum(u, i);
    assert Mirror(CentralFourth) == [Tap(-2, 1.0), Tap(-1, -4.0), Tap(0, 6.0), Tap(1, -4.0), Tap(2, 1.0)];
    assert Apply([Tap(2, 1.0)], u, i) == 1.0 * u[Wrap(i + 2, n)] + Apply([], u, i);
    assert Apply([Tap(1, -4.0), Tap(2, 1.0)], u, i) == -4.0 * u[Wrap(i + 1, n)] + Apply([Tap(2, 1.0)], u, i);
    assert Apply([Tap(0, 6.0), Tap(1, -4.0), Tap(2, 1.0)], u, i)
        == 6.0 * u[Wrap(i, n)] + Apply([Tap(1, -4.0), Tap(2, 1.0)], u, i);
    assert Apply([Tap(-1, -4.0), Tap(0, 6.0), Tap(1, -4.0), Tap(2, 1.0)], u, i)
        == -4.0 * u[Wrap(i - 1, n)] + Apply([Tap(0, 6.0), Tap(1, -4.0), Tap(2, 1.0)], u, i);
    assert Apply([Tap(-2, 1.0), Tap(-1, -4.0), Tap(0, 6.0), Tap(1, -4.0), Tap(2, 1.0)], u, i)
        == 1.0 * u[Wrap(i - 2, n)] + Apply([Tap(-1, -4.0), Tap(0, 6.0), Tap(1, -4.0), Tap(2, 1.0)], u, i);
  }

  lemma NegatedQuotient(a: real, d: real, r: real, p: real)
    requires d != 0.0 && r == (-a) / d && p == a / d
    ensures r == -p
  {
  }

  lemma DudxReflect(u: seq<real>, i: int, dx: real)
    requires |u| >= 1 && dx != 0.0
    ensures Dudx(Reflect(u), i, dx) == -Dudx(u, -i, dx)
  {
    ApplyReflect(CentralFirst, u, i);
    MirroredFirstSum(u, -i);
    NegatedQuotient(Apply(CentralFirst, u, -i), 2.0 * dx, Dudx(Reflect(u), i, dx), Dudx(u, -i, dx));
  }

  lemma LaplacianReflect(u: seq<real>, i: int, dx: real)
    requires 0 <= i < |u| && dx != 0.0
    ensures Laplacian(Reflect(u), i, dx) == Laplacian(u, Wrap(-i, |u|), dx)
  {
    ApplyReflect(CentralSecond, u, i);
    MirroredSecondSum(u, -i);
    ApplyAtWrap(CentralSecond, u, -i);
  }

  lemma D3udx3Reflect(u: seq<real>, i: int, dx: real)
    requires |u| >= 1 && dx != 0.0
    ensures D3udx3(Reflect(u), i, dx) == -D3udx3(u, -i, dx)
  {
    ApplyReflect(CentralThird, u, i);
    MirroredThirdSum(u, -i);
    NegatedQuotient(Apply(CentralThird, u, -i), 2.0 * Power(dx, 3), D3udx3(Reflect(u), i, dx), D3udx3(u, -i, dx));
  }

  lemma D4udx4Reflect(u: seq<real>, i: int, dx: real)
    requires 0 <= i < |u| && dx != 0.0
    ensures D4udx4(Reflect(u), i, dx) == D4udx4(u, Wrap(-i, |u|), dx)
  {
    ApplyReflect(CentralFourth, u, i);
    MirroredFourthSum(u, -i);
    ApplyAtWrap(CentralFourth, u, -i);
  }
}
