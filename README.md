# Periodic finite-difference stencils of MiniDeriv, in Dafny

MiniDeriv approximates spatial derivatives of a one-dimensional grid function
`u` on a periodic domain. The operators in `operators.py` are `dudx`,
`laplacian`, `d3udx3` and `d4udx4`. Each takes the grid values `u`, an index `i`
and the spacing `dx`. It wraps the neighbour indices `i ± 1` and `i ± 2` with
Python's `%`, so the point after the last grid point is the first one. It then
returns a fixed integer-coefficient combination of those samples, divided by a
power of `dx`.

This project models those four operators over real numbers and proves what
they promise.

- `periodic.dfy` (module `Periodic`): the wrap-around `Wrap(i, n)`. For a
  positive divisor, Python's floored `%` and Dafny's Euclidean `%` agree, so the
  model is exact for negative `i` too. The module also proves that the wrapped
  index is the unique residue, that wrapping is periodic, and that wrapping,
  offsetting and wrapping again equals wrapping the offset index (the two-step
  wraps of `d4udx4`).
- `stencil.dfy` (module `Stencil`): a reference definition of a stencil. A
  stencil is a list of taps, each an offset and a weight. `Apply` sums
  `weight * u[(i + offset) mod N]` over its taps. Some facts are proved once,
  by induction over the taps, for every stencil: linearity, the value on a
  constant grid, periodicity in `i`, commuting with rotation of the grid, and
  the effect of reflecting it.
- `operators.dfy` (module `Operators`): the four operators, written as the
  source computes them. Each one's contract ties its result to `Apply` of its
  coefficient table (1, −1), (1, −2, 1), (1, −2, 2, −1) or (1, −4, 6, −4, 1),
  divided by `2·dx`, `dx²`, `2·dx³` or `dx⁴`. `Power(dx, k)` is `dx` to the
  `k`-th power; `PowerSmall` proves it equals the source's products
  `dx * dx` and so on.
- `operator_lemmas.dfy` (module `OperatorLemmas`): the per-operator
  properties. Each operator vanishes on constant grids, is linear in `u`, and
  multiplied by its denominator gives back the bare coefficient sum. `dudx`
  and `d3udx3` are periodic in `i` (they read only wrapped indices). All four
  commute with rotating the grid. Under reflection, the odd-order operators
  change sign and the even-order ones do not.
- `polynomials.dfy`, `exactness.dfy` (modules `Polynomials`, `Exactness`): on
  polynomial data away from the wrap-around, each stencil is exact. Take `u[k]`
  to be `q(k)` for a polynomial `q`. Then the operator returns the matching
  derivative of `q` with respect to the grid index, divided by `dxⁿ`. This is
  the n-th derivative in `x` of the data sampled at `x = k·dx`. `dudx` is exact
  up to degree two, `laplacian` up to degree three, and `d3udx3` and `d4udx4`
  up to degree four.
- `test_values.dfy` (module `TestValues`): the exact interior and boundary
  values that `test/test_operators.py` expects, proved by evaluation.

The source's aliases `lap`, `d3` and `d4` (operators.py:48, 74, 99) are the
same function objects under other names. The model gives each operator one
name: `Laplacian`, `D3udx3` and `D4udx4`.

Facts about the code and its tests that shape the model:

- `dudx` and `d3udx3` read only wrapped indices, so the model accepts any
  integer `i` for them. `laplacian` and `d4udx4` read `u[i]` directly
  (operators.py:45, 96), so the model requires `0 <= i < |u|` for those two.
- The operators never check `dx`, so the model only requires `dx != 0`, which
  is what the division needs.
- The test intends a fourth derivative of 24 for `u[k] = k⁴` at interior
  points (test/test_operators.py:81). Its loop runs over
  `range(3, len(u) - 3)`, which is empty for five points
  (test/test_operators.py:85), so the test never checks that value.
  `TestValues.D4udx4OnFourthPowers` proves it at index 2, and
  `Exactness.D4udx4Exact` proves it in general.

## Model

| member | source | states |
|---|---|---|
| `Periodic.Wrap` | operators.py:23-24 | every wrapped neighbour index lies in [0, N) for any integer index, negative ones included, when N >= 1; an index already in [0, N) is unchanged |
| `Periodic.WrapUnique` | operators.py:67-70 | any decomposition i = q·N + r with 0 <= r < N determines the wrapped index: Python's floored `%` and the model's agree for every integer i |
| `Periodic.WrapPeriodic` | operators.py:67-70 | shifting an index by one period N does not change its wrapped index |
| `Periodic.WrapShift` | operators.py:92-95 | wrapping, offsetting and wrapping again equals wrapping the offset index, so `(left - 1) % N == (i - 2) % N` and `(right + 1) % N == (i + 2) % N` |
| `Stencil.ApplyConstant` | operators.py:25 | on a constant grid with value c, a stencil returns c times the sum of its weights |
| `Stencil.ApplyLinear` | operators.py:25 | a stencil applied to a·u + b·v equals a times its value on u plus b times its value on v |
| `Stencil.ApplyPeriodic` | operators.py:66-71 | a stencil at i + N equals the stencil at i |
| `Stencil.ApplyAtWrap` | operators.py:66-71 | a stencil at any integer i equals the stencil at i's wrapped index |
| `Stencil.ApplyRotate` | operators.py:23-25 | a stencil on the grid rotated by m, at i, equals the stencil on the original grid at i + m |
| `Stencil.ApplyReflect` | operators.py:23-25 | a stencil on the grid reflected about index 0, at i, equals the mirrored stencil on the original grid at -i |
| `Operators.Dudx` | operators.py:9-25 | dudx is the central first difference: (u[(i+1) mod N] − u[(i−1) mod N]) / (2·dx), as the coefficient table (1, −1) over 2·dx, for any integer i |
| `Operators.Laplacian` | operators.py:29-45 | laplacian is the coefficient table (1, −2, 1) over dx², reading u[i] directly for i in [0, N) |
| `Operators.D3udx3` | operators.py:52-71 | d3udx3 is the coefficient table (1, −2, 2, −1) at offsets +2, +1, −1, −2 over 2·dx³, for any integer i |
| `Operators.D4udx4` | operators.py:78-96 | d4udx4, whose outer neighbours come from wrapping the inner ones again, is the coefficient table (1, −4, 6, −4, 1) at offsets +2 … −2 over dx⁴ |
| `Operators.PowerSmall` | operators.py:45 | dx², dx³ and dx⁴ as the model writes them equal the source's products `dx * dx`, `dx**3` and `dx * dx * dx * dx` |
| `OperatorLemmas.CentralWeightsSumToZero` | operators.py:25 | the weights of each of the four coefficient tables sum to zero |
| `OperatorLemmas.DudxConstant` | operators.py:25 | dudx of a constant grid of any length >= 1 is 0 at every index |
| `OperatorLemmas.LaplacianConstant` | operators.py:45 | laplacian of a constant grid is 0 at every grid index |
| `OperatorLemmas.D3udx3Constant` | operators.py:71 | d3udx3 of a constant grid is 0 at every index |
| `OperatorLemmas.D4udx4Constant` | operators.py:96 | d4udx4 of a constant grid is 0 at every grid index |
| `OperatorLemmas.DudxLinear` | operators.py:25 | dudx(a·u + b·v) = a·dudx(u) + b·dudx(v) |
| `OperatorLemmas.LaplacianLinear` | operators.py:45 | laplacian(a·u + b·v) = a·laplacian(u) + b·laplacian(v) |
| `OperatorLemmas.D3udx3Linear` | operators.py:71 | d3udx3(a·u + b·v) = a·d3udx3(u) + b·d3udx3(v) |
| `OperatorLemmas.D4udx4Linear` | operators.py:96 | d4udx4(a·u + b·v) = a·d4udx4(u) + b·d4udx4(v) |
| `OperatorLemmas.DudxScaled` | operators.py:25 | dudx times 2·dx is the bare difference u[(i+1) mod N] − u[(i−1) mod N] |
| `OperatorLemmas.LaplacianScaled` | operators.py:45 | laplacian times dx² is u[(i+1) mod N] − 2·u[i] + u[(i−1) mod N] |
| `OperatorLemmas.D3udx3Scaled` | operators.py:71 | d3udx3 times 2·dx³ is u[(i+2) mod N] − 2·u[(i+1) mod N] + 2·u[(i−1) mod N] − u[(i−2) mod N] |
| `OperatorLemmas.D4udx4Scaled` | operators.py:92-96 | d4udx4 times dx⁴ is u[(i+2) mod N] − 4·u[(i+1) mod N] + 6·u[i] − 4·u[(i−1) mod N] + u[(i−2) mod N] |
| `OperatorLemmas.DudxPeriodic` | operators.py:23-25 | dudx at i + N equals dudx at i |
| `OperatorLemmas.D3udx3Periodic` | operators.py:66-71 | d3udx3 at i + N equals d3udx3 at i |
| `OperatorLemmas.DudxAtWrap` | operators.py:23-25 | dudx at any integer index equals dudx at that index's grid point |
| `OperatorLemmas.D3udx3AtWrap` | operators.py:66-71 | d3udx3 at any integer index equals d3udx3 at that index's grid point |
| `OperatorLemmas.DudxRotate` | operators.py:23-25 | dudx of the grid rotated by m, at i, equals dudx of the grid at i + m |
| `OperatorLemmas.LaplacianRotate` | operators.py:43-45 | laplacian of the grid rotated by m, at i, equals laplacian of the grid at (i + m) mod N |
| `OperatorLemmas.D3udx3Rotate` | operators.py:66-71 | d3udx3 of the grid rotated by m, at i, equals d3udx3 of the grid at i + m |
| `OperatorLemmas.D4udx4Rotate` | operators.py:92-96 | d4udx4 of the grid rotated by m, at i, equals d4udx4 of the grid at (i + m) mod N |
| `OperatorLemmas.DudxReflect` | operators.py:23-25 | the central first difference is odd: on the reflected grid it is minus dudx at −i |
| `OperatorLemmas.LaplacianReflect` | operators.py:43-45 | the central second difference is even: on the reflected grid it equals laplacian at (−i) mod N |
| `OperatorLemmas.D3udx3Reflect` | operators.py:66-71 | the central third difference is odd: on the reflected grid it is minus d3udx3 at −i |
| `OperatorLemmas.D4udx4Reflect` | operators.py:92-96 | the central fourth difference is even: on the reflected grid it equals d4udx4 at (−i) mod N |
| `Polynomials.CentralFirstDifference` | operators.py:25 | q(x+1) − q(x−1) = 2·q′(x) for every polynomial of degree at most two |
| `Polynomials.CentralSecondDifference` | operators.py:45 | q(x+1) − 2·q(x) + q(x−1) = q″(x) for every polynomial of degree at most three |
| `Polynomials.CentralThirdDifference` | operators.py:71 | q(x+2) − 2·q(x+1) + 2·q(x−1) − q(x−2) = 2·q‴(x) for every polynomial of degree at most four |
| `Polynomials.CentralFourthDifference` | operators.py:96 | q(x+2) − 4·q(x+1) + 6·q(x) − 4·q(x−1) + q(x−2) = q⁗(x) for every polynomial of degree at most four |
| `Exactness.DudxExact` | test/test_operators.py:9-17 | on samples of a quadratic, dudx at an interior index is the exact first derivative divided by dx |
| `Exactness.LaplacianExact` | test/test_operators.py:42-47 | on samples of a cubic, laplacian at an interior index is the exact second derivative divided by dx² |
| `Exactness.D3udx3Exact` | test/test_operators.py:54-64 | on samples of a quartic, d3udx3 at an index two away from both ends is the exact third derivative divided by dx³ |
| `Exactness.D4udx4Exact` | test/test_operators.py:77-87 | on samples of a quartic, d4udx4 at an index two away from both ends is the exact fourth derivative divided by dx⁴ |
| `TestValues.DudxOnRamp` | test/test_operators.py:9-24 | for u = [1, 2, 3, 4, 5] and dx = 1, dudx is 1 at indices 1–3 and −1.5 at indices 0 and 4 |
| `TestValues.LaplacianOnRamp` | test/test_operators.py:26-40 | for u = [1, 2, 3, 4, 5] and dx = 1, laplacian is 0 at indices 1–3, 5 at index 0 and −5 at index 4 |
| `TestValues.LaplacianOnSquares` | test/test_operators.py:42-52 | for u[k] = k² on five points and dx = 1, laplacian is 2 at indices 1–3, 17 at index 0 and −23 at index 4 |
| `TestValues.D3udx3OnCubes` | test/test_operators.py:54-75 | for u[k] = k³ on five points and dx = 1, d3udx3 is 6 at index 2 and 53.5, −26.5, −56.5, 23.5 at indices 0, 1, 3, 4 |
| `TestValues.D4udx4OnFourthPowers` | test/test_operators.py:77-97 | for u[k] = k⁴ on five points and dx = 1, d4udx4 is 24 at index 2 and −931, 279, −601, 1229 at indices 0, 1, 3, 4 |

## Left out

- `solver.py` is not part of this model. `PDESolver.solve` only rejects a
  non-`Storage` argument (solver.py:58-60). `PDEMultiSolver`, `SolverBase` and
  `Storage` are empty, and `GridSpacer.get_dx` only raises
  `NotImplementedError` (solver.py:86). There is no time stepping and no
  grid-spacing policy to model.
- The upwind first derivative (TODO at operators.py:5) does not exist in the
  source.
- Floating-point rounding, NaN and infinity, `numba.njit` compilation and
  NumPy array semantics are not modelled: values are real numbers. Under
  `njit` the indices `i ± 1` and `i ± 2` are int64 and can overflow near 2^63;
  the model's indices are unbounded integers, so that overflow is not modelled. Integer
  input arrays (such as the test's `x**2` arrays) are modelled by their real
  values.
- Division by zero when `dx = 0`, and `% 0` on an empty array, are not
  modelled. The source does not validate these inputs, so `dx != 0` and
  `|u| >= 1` are preconditions.
- Python's negative indexing of `u[i]` for an `i` outside `[0, N)` in
  `laplacian` and `d4udx4` is not modelled. Those two operators require
  `0 <= i < |u|`.
- The aliases `lap`, `d3` and `d4` are not separate members. They are the
  same functions under other names.
- `Exactness.D4udx4Exact`: states exactness for degree four only. Degree five
  also holds for this symmetric stencil but is not proved.
- The exactness lemmas state derivatives with respect to the grid index,
  divided by `dxⁿ`. They do not restate them with the samples taken at
  `x = k·dx`, which gives the same numbers.
