/**
 * The concrete values that test/test_operators.py expects, on five grid
 * points with dx = 1: a linear ramp, squares, cubes and fourth powers of the
 * grid index. Interior points give the exact derivative; the boundary points
 * see the periodic wrap-around.
 */
module TestValues {
  import opened Operators

  const Ramp: seq<real> := [1.0, 2.0, 3.0, 4.0, 5.0]
  const Squares: seq<real> := [0.0, 1.0, 4.0, 9.0, 16.0]
  const Cubes: seq<real> := [0.0, 1.0, 8.0, 27.0, 64.0]
  const FourthPowers: seq<real> := [0.0, 1.0, 16.0, 81.0, 256.0]

  lemma DudxOnRamp()
    ensures forall i :: 1 <= i <= 3 ==> Dudx(Ramp, i, 1.0) == 1.0
    ensures Dudx(Ramp, 0, 1.0) == -1.5 && Dudx(Ramp, 4, 1.0) == -1.5
  {
  }

  lemma LaplacianOnRamp()
    ensures forall i :: 1 <= i <= 3 ==> Laplacian(Ramp, i, 1.0) == 0.0
    ensures Laplacian(Ramp, 0, 1.0) == 5.0 && Laplacian(Ramp, 4, 1.0) == -5.0
  {
  }

  lemma LaplacianOnSquares()
    ensures forall i :: 1 <= i <= 3 ==> Laplacian(Squares, i, 1.0) == 2.0
    ensures Laplacian(Squares, 0, 1.0) == 17.0 && Laplacian(Squares, 4, 1.0) == -23.0
  {
  }

  lemma D3udx3OnCubes()
    ensures D3udx3(Cubes, 2, 1.0) == 6.0
    ensures D3udx3(Cubes, 0, 1.0) == 53.5 && D3udx3(Cubes, 1, 1.0) == -26.5
    ensures D3udx3(Cubes, 3, 1.0) == -56.5 && D3udx3(Cubes, 4, 1.0) == 23.5
  {
  }

  /** The interior value 24 at index 2 is the one the test intends; its loop
      over range(3, N - 3) is empty for N = 5, so the test never checks it. */
  lemma D4udx4OnFourthPowers()
    ensures D4udx4(FourthPowers, 2, 1.0) == 24.0
    ensures D4udx4(FourthPowers, 0, 1.0) == -931.0 && D4udx4(FourthPowers, 1, 1.0) == 279.0
    ensures D4udx4(FourthPowers, 3, 1.0) == -601.0 && D4udx4(FourthPowers, 4, 1.0) == 1229.0
  {
  }
}
