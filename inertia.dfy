/**
 * The momentum after a pan: per rendered frame the velocity decays by
 * 0.92, and while either component is at least 0.001 the pan moves by
 * 16 (ms) times the velocity and is clamped again. The three numbers are
 * written inline, as `step` writes them.
 */
module Inertia {
  import opened Bounds

  function Abs(x: real): (r: real)
    ensures r >= 0.0 && (r == x || r == -x)
  {
    if x < 0.0 then -x else x
  }

  /** The stop condition of a frame: both components below 0.001 in magnitude. */
  predicate Settled(vx: real, vy: real): (b: bool)
    ensures b <==> Speed(vx, vy) < 0.001
  {
    Abs(vx) < 0.001 && Abs(vy) < 0.001
  }

  /** The larger speed of the two axes. */
  function Speed(vx: real, vy: real): (m: real)
    ensures m >= 0.0 && Abs(vx) <= m && Abs(vy) <= m
  {
    Max(Abs(vx), Abs(vy))
  }

  /** One component of the velocity after n frames, starting from v. */
  function Velocity(v: real, n: nat): real {
    if n == 0 then v else Velocity(v, n - 1) * 0.92
  }

  /** 0.92 to the power n. */
  function Decay(n: nat): (r: real)
    ensures 0.0 < r <= 1.0
  {
    if n == 0 then 1.0 else 0.92 * Decay(n - 1)
  }

  /** After n frames the velocity is v * 0.92^n. */
  lemma {:induction false} VelocityIsDecayed(v: real, n: nat)
    ensures Velocity(v, n) == v * Decay(n)
  {
    if n > 0 {
      VelocityIsDecayed(v, n - 1);
      assert Velocity(v, n) == (v * Decay(n - 1)) * 0.92;
      assert (v * Decay(n - 1)) * 0.92 == v * (0.92 * Decay(n - 1));
    }
  }

  /** Bernoulli's inequality for the decay: 0.92^n <= 1 / (1 + 0.08 n). */
  lemma {:induction false} DecayBound(n: nat)
    ensures Decay(n) * (1.0 + 0.08 * n as real) <= 1.0
  {
    if n > 0 {
      DecayBound(n - 1);
      var d := Decay(n - 1);
      var k := 1.0 + 0.08 * (n - 1) as real;
      assert d * k <= 1.0;
      calc {
        Decay(n) * (1.0 + 0.08 * n as real);
        == 0.92 * d * (k + 0.08);
        == 0.92 * (d * k) + 0.92 * 0.08 * d;
        <= { assert 0.92 * (d * k) <= 0.92; assert 0.92 * 0.08 * d <= 0.92 * 0.08; }
           0.92 + 0.92 * 0.08;
      }
    }
  }

  /** A number of frames after which any velocity (vx, vy) has settled. */
  function FrameBound(vx: real, vy: real): (n: nat)
    ensures n >= 1
    ensures n as real > 12500.0 * Speed(vx, vy)
  {
    (12500.0 * Speed(vx, vy)).Floor + 1
  }

  /** Arithmetic step of the settle proof: a positive factor comes out of Abs. */
  lemma DecayedAbs(v: real, d: real)
    requires d > 0.0
    ensures Abs(v * d) == Abs(v) * d
  {
  }

  /** If a * k <= 1 and m < e * k with k > 0 and m >= 0, then m * a < e. */
  lemma ScaledBelow(a: real, k: real, m: real, e: real)
    requires k > 0.0 && m >= 0.0 && a * k <= 1.0 && m < e * k
    ensures m * a < e
  {
    assert m * (a * k) <= m;
    assert (m * a) * k < e * k;
  }

  /** Arithmetic step of the settle proof: multiplying by a positive d keeps the order. */
  lemma MulMonotone(a: real, b: real, d: real)
    requires a <= b && d > 0.0
    ensures a * d <= b * d
  {
  }

  /** Arithmetic step of the settle proof: chaining ==, <= and <. */
  lemma LessChain(a: real, b: real, c: real, e: real)
    requires a == b && b <= c && c < e
    ensures a < e
  {
  }

  /** A component bounded by m, decayed by d with m * d < 0.001, is below 0.001. */
  lemma DecayedBelow(v: real, m: real, d: real)
    requires Abs(v) <= m && d > 0.0 && m * d < 0.001
    ensures Abs(v * d) < 0.001
  {
    DecayedAbs(v, d);
    MulMonotone(Abs(v), m, d);
    LessChain(Abs(v * d), Abs(v) * d, m * d, 0.001);
  }

  /** A speed m has decayed below 0.001 once 12500 * m < n. */
  lemma SpeedSettles(m: real, n: nat, d: real)
    requires m >= 0.0 && 12500.0 * m < n as real && d == Decay(n)
    ensures m * d < 0.001
  {
    var k := 1.0 + 0.08 * n as real;
    DecayBound(n);
    assert 0.001 * k == 0.001 + 0.00008 * n as real;
    assert m < 0.00008 * n as real;
    ScaledBelow(d, k, m, 0.001);
  }

  /** Both components bounded by m, decayed by a d with m * d < 0.001, are settled. */
  lemma SettledUnder(vx: real, vy: real, m: real, d: real)
    requires Abs(vx) <= m && Abs(vy) <= m && d > 0.0 && m * d < 0.001
    ensures Settled(vx * d, vy * d)
  {
    DecayedBelow(vx, m, d);
    DecayedBelow(vy, m, d);
  }

  /** A pair bounded by m, with 12500 * m < n, is settled after n frames. */
  lemma SettledAfter(vx: real, vy: real, m: real, n: nat, d: real)
    requires Abs(vx) <= m && Abs(vy) <= m && 12500.0 * m < n as real && d == Decay(n)
    ensures Settled(vx * d, vy * d)
  {
    SpeedSettles(m, n, d);
    SettledUnder(vx, vy, m, d);
  }

  /** After n frames, n at least FrameBound, the decayed velocity is settled. */
  lemma DecayedSettled(vx: real, vy: real, n: nat)
    requires FrameBound(vx, vy) <= n
    ensures Settled(vx * Decay(n), vy * Decay(n))
  {
    SettledAfter(vx, vy, Speed(vx, vy), n, Decay(n));
  }

  /** The velocity never grows: after n frames each component is at most its start in magnitude. */
  lemma VelocityShrinks(v: real, n: nat)
    ensures Abs(Velocity(v, n)) <= Abs(v)
  {
    VelocityIsDecayed(v, n);
    DecayedAbs(v, Decay(n));
    assert Abs(v) * Decay(n) <= Abs(v);
  }

  /** From frame FrameBound on, the velocity is settled. */
  lemma SettledFrom(vx: real, vy: real, n: nat)
    requires FrameBound(vx, vy) <= n
    ensures Settled(Velocity(vx, n), Velocity(vy, n))
  {
    var a, b := Velocity(vx, n), Velocity(vy, n);
    DecayedSettled(vx, vy, n);
    VelocityIsDecayed(vx, n);
    VelocityIsDecayed(vy, n);
    assert a == vx * Decay(n) && b == vy * Decay(n);
  }

  /** Every velocity settles after finitely many frames. */
  lemma Settles(vx: real, vy: real)
    ensures exists n: nat :: Settled(Velocity(vx, n), Velocity(vy, n))
  {
    SettledFrom(vx, vy, FrameBound(vx, vy));
  }

  /**
   * The transform after m moving inertia frames, starting at t with the
   * velocity (vx, vy) the release left behind. The layout is the one of
   * the whole run.
   */
  function Coast(L: Layout, t: Transform, vx: real, vy: real, m: nat): (r: Transform)
    ensures r.scale == t.scale
    ensures m > 0 ==> InBounds(L, r)
  {
    if m == 0 then t
    else
      var p := Coast(L, t, vx, vy, m - 1);
      ClampPan(L, Transform(p.scale, p.x + 16.0 * Velocity(vx, m), p.y + 16.0 * Velocity(vy, m)))
  }

  /**
   * One inertia frame continues the run by one frame: the decayed velocity
   * is the next `Velocity`, and moving the previous transform by it and
   * clamping gives the next `Coast`.
   */
  lemma CoastStep(L: Layout, t: Transform, vx: real, vy: real, m: nat, prev: Transform,
                  wx: real, wy: real, ux: real, uy: real)
    requires m >= 1 && prev == Coast(L, t, vx, vy, m - 1)
    requires wx == Velocity(vx, m - 1) && wy == Velocity(vy, m - 1)
    requires ux == wx * 0.92 && uy == wy * 0.92
    ensures ux == Velocity(vx, m) && uy == Velocity(vy, m)
    ensures Coast(L, t, vx, vy, m) ==
            ClampPan(L, Transform(prev.scale, prev.x + 16.0 * ux, prev.y + 16.0 * uy))
  {
  }

  /**
   * An inertia run from velocity (vx, vy) and transform t after n frames:
   * the velocity is the n-th one, no earlier frame settled, and `more`
   * says whether the chain goes on (always before the first frame, then
   * exactly when the last frame did not settle). A run that goes on has
   * moved in every frame; one that stopped did not move in its last.
   */
  ghost predicate Chain(L: Layout, t: Transform, vx: real, vy: real, n: nat,
                        more: bool, cur: Transform, ux: real, uy: real)
  {
    ux == Velocity(vx, n) && uy == Velocity(vy, n) &&
    (forall j :: 1 <= j < n ==> !Settled(Velocity(vx, j), Velocity(vy, j))) &&
    more == (n == 0 || !Settled(ux, uy)) &&
    (more ==> n < FrameBound(vx, vy) && cur == Coast(L, t, vx, vy, n)) &&
    (!more ==> n <= FrameBound(vx, vy) && cur == Coast(L, t, vx, vy, n - 1))
  }

  /**
   * One frame of `step` on a run that goes on: decay the velocity, then
   * either stop where it is or move by 16 times the new velocity and clamp.
   */
  lemma ChainStep(L: Layout, t: Transform, vx: real, vy: real, n: nat, cur: Transform,
                  ux: real, uy: real, more: bool, next: Transform, wx: real, wy: real)
    requires Chain(L, t, vx, vy, n, true, cur, ux, uy)
    requires wx == ux * 0.92 && wy == uy * 0.92 && more == !Settled(wx, wy)
    requires more ==> next == ClampPan(L, Transform(cur.scale, cur.x + 16.0 * wx, cur.y + 16.0 * wy))
    requires !more ==> next == cur
    ensures Chain(L, t, vx, vy, n + 1, more, next, wx, wy)
  {
    CoastStep(L, t, vx, vy, n + 1, cur, ux, uy, wx, wy);
    if more && FrameBound(vx, vy) <= n + 1 {
      SettledFrom(vx, vy, n + 1);
    }
  }

  /** Decay never flips the sign of a component. */
  lemma {:induction false} VelocitySign(v: real, n: nat)
    ensures v >= 0.0 ==> Velocity(v, n) >= 0.0
    ensures v <= 0.0 ==> Velocity(v, n) <= 0.0
  {
    if n > 0 {
      VelocitySign(v, n - 1);
    }
  }

  /**
   * Momentum never reverses: from an in-bounds start, each frame moves an
   * axis only in the direction of its release velocity.
   */
  lemma CoastKeepsDirection(L: Layout, t: Transform, vx: real, vy: real, m: nat)
    requires InBounds(L, t)
    ensures var p, q := Coast(L, t, vx, vy, m), Coast(L, t, vx, vy, m + 1);
            (vx >= 0.0 ==> p.x <= q.x) && (vx <= 0.0 ==> q.x <= p.x) &&
            (vy >= 0.0 ==> p.y <= q.y) && (vy <= 0.0 ==> q.y <= p.y)
  {
    var p := Coast(L, t, vx, vy, m);
    var wx, wy := Velocity(vx, m), Velocity(vy, m);
    var ux, uy := wx * 0.92, wy * 0.92;
    VelocitySign(vx, m + 1);
    VelocitySign(vy, m + 1);
    CoastStep(L, t, vx, vy, m + 1, p, wx, wy, ux, uy);
    ClampPanMoves(L, p, 16.0 * ux, 16.0 * uy);
  }
}
