/**
 * The periodic finite-difference operators of operators.py.
 *
 * Each operator takes the grid values u, an index i and the spacing dx; it
 * wraps its neighbour indices periodically and returns an integer-coefficient
 * combination of the samples divided by a power of dx. Values are real
 * numbers: floating-point rounding is not modelled. The source does not
 * validate dx or the length of u, so dx != 0 and |u| >= 1 are preconditions.
 * laplacian and d4udx4 also read u[i] directly, so they require i to be a
 * grid index; dudx and d3udx3 read only wrapped indices and accept any i.
 */
module Operators {
  import opened Periodic
  import opened Stencil

  /** u[i+1] - u[i-1] */
  const CentralFirst: seq<Tap> := [Tap(1, 1.0), Tap(-1, -1.0)]
  /** u[i+1] - 2 u[i] + u[i-1] */
  const CentralSecond: seq<Tap> := [Tap(1, 1.0), Tap(0, -2.0), Tap(-1, 1.0)]
  /** u[i+2] - 2 u[i+1] + 2 u[i-1] - u[i-2] */
  const CentralThird: seq<Tap> := [Tap(2, 1.0), Tap(1, -2.0), Tap(-1, 2.0), Tap(-2, -1.0)]
  /** u[i+2] - 4 u[i+1] + 6 u[i] - 4 u[i-1] + u[i-2] */
  const CentralFourth: seq<Tap> := [Tap(2, 1.0), Tap(1, -4.0), Tap(0, 6.0), Tap(-1, -4.0), Tap(-2, 1.0)]

  /** dx raised to the k-th power; nonzero whenever dx is. */
  function Power(dx: real, k: nat): (p: real)
    ensures dx != 0.0 ==> p != 0.0
  {
    if k == 0 then 1.0 else dx * Power(dx, k - 1)
  }

  lemma PowerSmall(dx: real)
    ensures Power(dx, 2) == dx * dx
    ensures Power(dx, 3) == dx * dx * dx
    ensures Power(dx, 4) == dx * dx * dx * dx
  {
    assert Power(dx, 1) == dx;
    assert Power(dx, 2) == dx * dx;
    assert Power(dx, 3) == dx * (dx * dx);
    assert Power(dx, 4) == dx * (dx * dx * dx);
  }

  /** The coefficient tables written out as sums of wrapped samples. */
  lemma FirstSum(u: seq<real>, i: int)
    requires |u| >= 1
    ensures Apply(CentralFirst, u, i) == u[Wrap(i + 1, |u|)] - u[Wrap(i - 1, |u|)]
  {
    var n := |u|;
    assert Apply([Tap(-1, -1.0)], u, i) == -1.0 * u[Wrap(i - 1, n)] + Apply([], u, i);
    assert Apply(CentralFirst, u, i) == 1.0 * u[Wrap(i + 1, n)] + Apply([Tap(-1, -1.0)], u, i);
  }

  lemma SecondSum(u: seq<real>, i: int)
    requires |u| >= 1
    ensures Apply(CentralSecond, u, i)
         == u[Wrap(i + 1, |u|)] - 2.0 * u[Wrap(i, |u|)] + u[Wrap(i - 1, |u|)]
  {
    var n := |u|;
    assert Apply([Tap(-1, 1.0)], u, i) == 1.0 * u[Wrap(i - 1, n)] + Apply([], u, i);
    assert Apply([Tap(0, -2.0), Tap(-1, 1.0)], u, i) == -2.0 * u[Wrap(i, n)] + Apply([Tap(-1, 1.0)], u, i);
    assert Apply(CentralSecond, u, i) == 1.0 * u[Wrap(i + 1, n)] + Apply([Tap(0, -2.0), Tap(-1, 1.0)], u, i);
  }

  lemma ThirdSum(u: seq<real>, i: int)
    requires |u| >= 1
    ensures Apply(CentralThird, u, i)
         == u[Wrap(i + 2, |u|)] - 2.0 * u[Wrap(i + 1, |u|)] + 2.0 * u[Wrap(i - 1, |u|)] - u[Wrap(i - 2, |u|)]
  {
    var n := |u|;
    assert Apply([Tap(-2, -1.0)], u, i) == -1.0 * u[Wrap(i - 2, n)] + Apply([], u, i);
    assert Apply([Tap(-1, 2.0), Tap(-2, -1.0)], u, i) == 2.0 * u[Wrap(i - 1, n)] + Apply([Tap(-2, -1.0)], u, i);
    assert Apply([Tap(1, -2.0), Tap(-1, 2.0), Tap(-2, -1.0)], u, i) == -2.0 * u[Wrap(i + 1, n)] + Apply([Tap(-1, 2.0), Tap(-2, -1.0)], u, i);
    assert Apply(CentralThird, u, i) == 1.0 * u[Wrap(i + 2, n)] + Apply([Tap(1, -2.0), Tap(-1, 2.0), Tap(-2, -1.0)], u, i);
  }

  lemma FourthSum(u: seq<real>, i: int)
    requires |u| >= 1
    ensures Apply(CentralFourth, u, i)
         == u[Wrap(i + 2, |u|)] - 4.0 * u[Wrap(i + 1, |u|)] + 6.0 * u[Wrap(i, |u|)]
            - 4.0 * u[Wrap(i - 1, |u|)] + u[Wrap(i - 2, |u|)]
  {
    var n := |u|;
    assert Apply([Tap(-2, 1.0)], u, i) == 1.0 * u[Wrap(i - 2, n)] + Apply([], u, i);
    assert Apply([Tap(-1, -4.0), Tap(-2, 1.0)], u, i) == -4.0 * u[Wrap(i - 1, n)] + Apply([Tap(-2, 1.0)], u, i);
    assert Apply([Tap(0, 6.0), Tap(-1, -4.0), Tap(-2, 1.0)], u, i) == 6.0 * u[Wrap(i, n)] + Apply([Tap(-1, -4.0), Tap(-2, 1.0)], u, i);
    assert Apply([Tap(1, -4.0), Tap(0, 6.0), Tap(-1, -4.0), Tap(-2, 1.0)], u, i) == -4.0 * u[Wrap(i + 1, n)] + Apply([Tap(0, 6.0), Tap(-1, -4.0), Tap(-2, 1.0)], u, i);
    assert Apply(CentralFourth, u, i) == 1.0 * u[Wrap(i + 2, n)] + Apply([Tap(1, -4.0), Tap(0, 6.0), Tap(-1, -4.0), Tap(-2, 1.0)], u, i);
  }

  /** First derivative by central differences (dudx). */
  function Dudx(u: seq<real>, i: int, dx: real): (r: real)
    requires |u| >= 1 && dx != 0.0
    ensures r == Apply(CentralFirst, u, i) / (2.0 * dx)
  {
    var left := Wrap(i - 1, |u|);
    var right := Wrap(i + 1, |u|);
    FirstSum(u, i);
    (u[right] - u[left]) / (2.0 * dx)
  }

  /** Second derivative by central differences (laplacian, alias lap). */
  function Laplacian(u: seq<real>, i: int, dx: real): (r: real)
    requires 0 <= i < |u| && dx != 0.0
    ensures r == Apply(CentralSecond, u, i) / Power(dx, 2)
  {
    var left := Wrap(i - 1, |u|);
    var right := Wrap(i + 1, |u|);
    SecondSum(u, i);
    PowerSmall(dx);
    (u[right] - 2.0 * u[i] + u[left]) / (dx * dx)
  }

  /** Third derivative by central differences (d3udx3, alias d3). */
  function D3udx3(u: seq<real>, i: int, dx: real): (r: real)
    requires |u| >= 1 && dx != 0.0
    ensures r == Apply(CentralThird, u, i) / (2.0 * Power(dx, 3))
  {
    var n := |u|;
    var im2 := Wrap(i - 2, n);
    var im1 := Wrap(i - 1, n);
    var ip1 := Wrap(i + 1, n);
    var ip2 := Wrap(i + 2, n);
    ThirdSum(u, i);
    PowerSmall(dx);
    (u[ip2] - 2.0 * u[ip1] + 2.0 * u[im1] - u[im2]) / (2.0 * (dx * dx * dx))
  }

  /** Fourth derivative by central differences (d4udx4, alias d4). The outer
      neighbours are reached by wrapping the inner neighbours once more. */
  function D4udx4(u: seq<real>, i: int, dx: real): (r: real)
    requires 0 <= i < |u| && dx != 0.0
    ensures r == Apply(CentralFourth, u, i) / Power(dx, 4)
  {
    var left := Wrap(i - 1, |u|);
    var left2 := Wrap(left - 1, |u|);
    var right := Wrap(i + 1, |u|);
    var right2 := Wrap(right + 1, |u|);
    WrapShift(i - 1, -1, |u|);
    WrapShift(i + 1, 1, |u|);
    FourthSum(u, i);
    PowerSmall(dx);
    (u[right2] - 4.0 * u[right] + 6.0 * u[i] - 4.0 * u[left] + u[left2]) / (dx * dx * dx * dx)
  }
}
