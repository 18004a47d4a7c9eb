/**
 * A finite-difference stencil on a periodic grid, as a reference definition:
 * a list of taps, each an integer offset from the evaluation point and a
 * real weight (integer-valued in the four tables of `Operators`). Applying a
 * stencil at index i sums
 * weight * u[(i + offset) mod N] over its taps. The general facts about
 * stencils (linearity, constants, periodicity, rotation and reflection of
 * the grid) are proved here once and specialised to each operator.
 */
module Stencil {
  import opened Periodic

  datatype Tap = Tap(offset: int, weight: real)

  /** The weighted sum of the stencil's samples around grid index i. */
  function Apply(s: seq<Tap>, u: seq<real>, i: int): real
    requires |u| >= 1
  {
    if s == [] then 0.0
    else s[0].weight * u[Wrap(i + s[0].offset, |u|)] + Apply(s[1..], u, i)
  }

  /** The sum of the stencil's weights. */
  function WeightSum(s: seq<Tap>): real
  {
    if s == [] then 0.0 else s[0].weight + WeightSum(s[1..])
  }

  /** The stencil with every offset negated. */
  function Mirror(s: seq<Tap>): seq<Tap>
  {
    if s == [] then [] else [Tap(-s[0].offset, s[0].weight)] + Mirror(s[1..])
  }

  /** Pointwise a * u + b * v. */
  function Combine(a: real, u: seq<real>, b: real, v: seq<real>): seq<real>
    requires |u| == |v|
  {
    seq(|u|, k requires 0 <= k < |u| => a * u[k] + b * v[k])
  }

  /** The grid read from index m on: Rotate(u, m)[k] == u[(k + m) mod N]. */
  function Rotate(u: seq<real>, m: int): seq<real>
    requires |u| >= 1
  {
    seq(|u|, k requires 0 <= k < |u| => u[Wrap(k + m, |u|)])
  }

  /** The grid mirrored about index 0: Reflect(u)[k] == u[(-k) mod N]. */
  function Reflect(u: seq<real>): seq<real>
    requires |u| >= 1
  {
    seq(|u|, k requires 0 <= k < |u| => u[Wrap(-k, |u|)])
  }

  predicate Constant(u: seq<real>, c: real)
  {
    forall k :: 0 <= k < |u| ==> u[k] == c
  }

  /** On a constant grid a stencil returns the constant times its weight sum. */
  lemma {:induction false} ApplyConstant(s: seq<Tap>, u: seq<real>, c: real, i: int)
    requires |u| >= 1 && Constant(u, c)
    ensures Apply(s, u, i) == c * WeightSum(s)
  {
    if s != [] {
      ApplyConstant(s[1..], u, c, i);
    }
  }

  /** A stencil is linear in the grid values. */
  lemma {:induction false} ApplyLinear(s: seq<Tap>, a: real, u: seq<real>, b: real, v: seq<real>, i: int)
    requires |u| >= 1 && |u| == |v|
    ensures Apply(s, Combine(a, u, b, v), i) == a * Apply(s, u, i) + b * Apply(s, v, i)
  {
    if s != [] {
      ApplyLinear(s[1..], a, u, b, v, i);
    }
  }

  /** Shifting the evaluation point by a whole period changes nothing. */
  lemma {:induction false} ApplyPeriodic(s: seq<Tap>, u: seq<real>, i: int)
    requires |u| >= 1
    ensures Apply(s, u, i + |u|) == Apply(s, u, i)
  {
    if s != [] {
      WrapPeriodic(i + s[0].offset, |u|);
      assert i + |u| + s[0].offset == (i + s[0].offset) + |u|;
      ApplyPeriodic(s[1..], u, i);
    }
  }

  /** A stencil only sees the evaluation point modulo the grid size. */
  lemma {:induction false} ApplyAtWrap(s: seq<Tap>, u: seq<real>, i: int)
    requires |u| >= 1
    ensures Apply(s, u, Wrap(i, |u|)) == Apply(s, u, i)
  {
    if s != [] {
      WrapShift(i, s[0].offset, |u|);
      ApplyAtWrap(s[1..], u, i);
    }
  }

  /** Rotating the grid by m is the same as moving the evaluation point by m. */
  lemma {:induction false} ApplyRotate(s: seq<Tap>, u: seq<real>, m: int, i: int)
    requires |u| >= 1
    ensures Apply(s, Rotate(u, m), i) == Apply(s, u, i + m)
  {
    if s != [] {
      var j := Wrap(i + s[0].offset, |u|);
      WrapShift(i + s[0].offset, m, |u|);
      assert Rotate(u, m)[j] == u[Wrap(i + m + s[0].offset, |u|)];
      ApplyRotate(s[1..], u, m, i);
    }
  }

  /** Reflecting the grid is the same as mirroring the stencil and evaluating at -i. */
  lemma {:induction false} ApplyReflect(s: seq<Tap>, u: seq<real>, i: int)
    requires |u| >= 1
    ensures Apply(s, Reflect(u), i) == Apply(Mirror(s), u, -i)
  {
    if s != [] {
      var t, n := s[0], |u|;
      var j, k := Wrap(i + t.offset, n), Wrap(-i + -t.offset, n);
      assert Reflect(u)[j] == u[k] by {
        WrapNeg(i + t.offset, n);
        assert -(i + t.offset) == -i + -t.offset;
      }
      assert Apply(Mirror(s), u, -i) == t.weight * u[k] + Apply(Mirror(s[1..]), u, -i) by {
        var m := [Tap(-t.offset, t.weight)] + Mirror(s[1..]);
        assert Mirror(s) == m;
        assert m[0] == Tap(-t.offset, t.weight) && m[1..] == Mirror(s[1..]);
      }
      ApplyReflect(s[1..], u, i);
    }
  }
}
