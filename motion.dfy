// The motion integrator: a velocity that each frame is damped and snapped
// to rest below a threshold. Velocities are reals; the rounding of the
// program's floating-point arithmetic is not modelled.

module Motion {

  /** Factor applied to the velocity every frame. */
  const Damping: real := 0.9
  /** Below this magnitude a velocity component is set to exactly zero. */
  const RestThreshold: real := 0.05
  /** Factor applied to wheel deltas. */
  const WheelScale: real := 0.25

  /** A two-dimensional vector: a velocity, a scroll offset or a camera position. */
  datatype Vec2 = Vec2(x: real, y: real)

  function Abs(r: real): real
  {
    if r < 0.0 then -r else r
  }

  /** One frame of damping of one velocity component. */
  function Damp(v: real): (r: real)
    // the velocity either rests exactly or keeps a magnitude of at least the threshold
    ensures r == 0.0 || RestThreshold <= Abs(r)
    // it shrinks at least by the damping factor
    ensures Abs(r) <= Damping * Abs(v)
    // a moving component is the damped input, with the same sign
    ensures r != 0.0 ==> r == Damping * v
    // rest is absorbing
    ensures v == 0.0 ==> r == 0.0
    // a damped magnitude at or above the threshold is kept
    ensures RestThreshold <= Abs(Damping * v) ==> r == Damping * v
  {
    var d := v * Damping;
    if Abs(d) < RestThreshold then 0.0 else d
  }

  /** `b` to the power `n`. */
  function Pow(b: real, n: nat): real
  {
    if n == 0 then 1.0 else b * Pow(b, n - 1)
  }

  /** The velocity component after `n` frames without input. */
  function DampN(v: real, n: nat): real
  {
    if n == 0 then v else Damp(DampN(v, n - 1))
  }

  /** After `n` frames a component is either at rest or exactly the geometrically damped input. */
  lemma {:induction false} DampNShape(v: real, n: nat)
    ensures DampN(v, n) == 0.0 || DampN(v, n) == v * Pow(Damping, n)
  {
    if n > 0 {
      DampNShape(v, n - 1);
      if DampN(v, n) != 0.0 {
        assert DampN(v, n) == Damping * DampN(v, n - 1);
        assert DampN(v, n - 1) != 0.0;
        assert v * Pow(Damping, n) == Damping * (v * Pow(Damping, n - 1));
      }
    }
  }

  /** The input damped `n` times without the rest snap: `v` times the damping factor to the `n`. */
  function Geometric(v: real, n: nat): real
  {
    if n == 0 then v else Damping * Geometric(v, n - 1)
  }

  /**
   * While the geometrically damped magnitude stays at or above the rest
   * threshold at every frame up to `n`, the component is exactly the
   * geometrically damped input.
   */
  lemma {:induction false} DampNMoving(v: real, n: nat)
    requires forall k :: 1 <= k <= n ==> RestThreshold <= Abs(Geometric(v, k))
    ensures DampN(v, n) == Geometric(v, n)
  {
    if n > 0 {
      DampNMoving(v, n - 1);
      assert RestThreshold <= Abs(Geometric(v, n));
    }
  }

  /**
   * A moving component is at rest after `n` frames exactly when its
   * geometrically damped value fell below the threshold in magnitude at
   * some frame up to `n`.
   */
  lemma {:induction false} DampNRestIff(v: real, n: nat)
    requires v != 0.0
    ensures DampN(v, n) == 0.0 <==> exists k :: 1 <= k <= n && Abs(Geometric(v, k)) < RestThreshold
  {
    if n > 0 {
      DampNRestIff(v, n - 1);
      if DampN(v, n - 1) == 0.0 {
        var k :| 1 <= k <= n - 1 && Abs(Geometric(v, k)) < RestThreshold;
        assert DampN(v, n) == Damp(0.0);
      } else {
        forall k | 1 <= k <= n - 1 ensures RestThreshold <= Abs(Geometric(v, k)) {
        }
        DampNMoving(v, n - 1);
        assert DampN(v, n) == Damp(Geometric(v, n - 1));
        if RestThreshold <= Abs(Geometric(v, n)) {
          forall k | 1 <= k <= n ensures RestThreshold <= Abs(Geometric(v, k)) {
          }
          assert DampN(v, n) == Geometric(v, n) != 0.0;
        }
      }
    }
  }

  /** Damping without the snap is multiplication by a power of the damping factor. */
  lemma {:induction false} GeometricPow(v: real, n: nat)
    ensures Geometric(v, n) == v * Pow(Damping, n)
  {
    if n > 0 {
      GeometricPow(v, n - 1);
      assert Damping * (v * Pow(Damping, n - 1)) == v * (Damping * Pow(Damping, n - 1));
    }
  }

  lemma {:induction false} PowPositive(b: real, n: nat)
    requires b > 0.0
    ensures Pow(b, n) > 0.0
  {
    if n > 0 {
      PowPositive(b, n - 1);
    }
  }

  /** Once at rest, a component stays at rest for every later frame. */
  lemma {:induction false} RestIsAbsorbing(v: real, m: nat, k: nat)
    requires DampN(v, m) == 0.0
    ensures DampN(v, m + k) == 0.0
  {
    if k > 0 {
      RestIsAbsorbing(v, m, k - 1);
    }
  }

  /** A magnitude `Abs(v)` scaled by `c` is below the rest threshold. */
  predicate BelowRest(v: real, c: real)
  {
    Abs(v) * c < RestThreshold
  }

  /** A component is at rest at the first frame where the damped magnitude is below the threshold. */
  lemma RestReached(v: real, n: nat)
    requires n >= 1 && BelowRest(v, Pow(Damping, n))
    ensures DampN(v, n) == 0.0
  {
    DampNShape(v, n - 1);
    PowPositive(Damping, n);
    SnapStep(DampN(v, n - 1), v, Pow(Damping, n - 1), Pow(Damping, n));
  }

  lemma SnapStep(prev: real, v: real, c0: real, c: real)
    requires prev == 0.0 || prev == v * c0
    requires c == Damping * c0 && c > 0.0 && BelowRest(v, c)
    ensures Damp(prev) == 0.0
  {
    if prev != 0.0 {
      assert prev * Damping == v * c;
      AbsScale(v, c);
    }
  }

  lemma AbsScale(x: real, c: real)
    requires c > 0.0
    ensures Abs(x * c) == Abs(x) * c
  {
    if x < 0.0 {
      assert x * c < 0.0;
    }
  }

  lemma {:induction false} PowAdd(b: real, m: nat, n: nat)
    ensures Pow(b, m + n) == Pow(b, m) * Pow(b, n)
  {
    if m > 0 {
      PowAdd(b, m - 1, n);
    }
  }

  lemma MulAtMost(a: real, b: real, c: real)
    requires 0.0 <= a <= b && c > 0.0
    ensures a * c <= b * c
  {
  }

  lemma MulBelow(a: real, x: real, b: real, y: real)
    requires 0.0 < a < x && 0.0 < b < y
    ensures a * b < x * y
  {
    assert a * b < x * b;
  }

  /** The damping factor to the 51st power is below a tenth of a percent of 5. */
  lemma DampingPow51()
    ensures Pow(Damping, 51) < 0.005
  {
    var b := Damping;
    assert Pow(b, 3) == 0.729;
    PowPositive(b, 6);
    PowPositive(b, 12);
    PowPositive(b, 24);
    PowPositive(b, 48);
    PowAdd(b, 3, 3);
    PowAdd(b, 6, 6);
    MulBelow(Pow(b, 6), 0.532, Pow(b, 6), 0.532);
    PowAdd(b, 12, 12);
    MulBelow(Pow(b, 12), 0.2831, Pow(b, 12), 0.2831);
    PowAdd(b, 24, 24);
    MulBelow(Pow(b, 24), 0.0802, Pow(b, 24), 0.0802);
    PowAdd(b, 48, 3);
    MulBelow(Pow(b, 48), 0.00644, Pow(b, 3), 0.7291);
  }

  /**
   * Any velocity component of magnitude at most 10 (a drag of 10 pixels in
   * one frame) is exactly zero after 51 frames and stays zero.
   */
  lemma RestWithin51Frames(v: real, k: nat)
    requires Abs(v) <= 10.0
    ensures DampN(v, 51 + k) == 0.0
  {
    var c := Pow(Damping, 51);
    DampingPow51();
    PowPositive(Damping, 51);
    MulAtMost(Abs(v), 10.0, c);
    assert c < 0.005;
    assert Abs(v) * c < RestThreshold;
    assert BelowRest(v, c);
    RestReached(v, 51);
    RestIsAbsorbing(v, 51, k);
  }
}
