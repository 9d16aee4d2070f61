/** Linear interpolation and repeated easing over exact reals.

    `Lerp` stands in for `THREE.MathUtils.lerp`; every smoothed quantity of the
    display (pinch distance, pointer, progress, camera) is eased with it once per
    callback, so the facts about repeated easing are proved here once. */
module MathUtils {

  datatype Vec2 = Vec2(x: real, y: real)

  datatype Vec3 = Vec3(x: real, y: real, z: real)

  /** lerp(a, b, t) = a + (b - a) * t */
  function Lerp(a: real, b: real, t: real): real
  {
    a + (b - a) * t
  }

  /** Componentwise `Lerp` of two points. */
  function Lerp3(a: Vec3, b: Vec3, t: real): Vec3
  {
    Vec3(Lerp(a.x, b.x, t), Lerp(a.y, b.y, t), Lerp(a.z, b.z, t))
  }

  function Abs(x: real): real
  {
    if x < 0.0 then -x else x
  }

  /** `x` lies on the closed segment from `a` to `b`, in either orientation. */
  predicate Between(a: real, b: real, x: real)
  {
    (a <= x <= b) || (b <= x <= a)
  }

  /** A factor in [0, 1] puts the eased value on the segment from the old value to
      the target, and leaves it `1 - t` times as far from the target as before. */
  lemma LerpTowards(a: real, b: real, t: real)
    requires 0.0 <= t <= 1.0
    ensures Between(a, b, Lerp(a, b, t))
    ensures Lerp(a, b, t) - b == (1.0 - t) * (a - b)
    ensures Abs(Lerp(a, b, t) - b) == (1.0 - t) * Abs(a - b)
  {
    var e := a - b;
    var u := 1.0 - t;
    LerpGap(a, b, t);
    assert Lerp(a, b, t) - b == e * u;
    if e >= 0.0 {
      ProductWithin(e, u);
      assert Abs(e) == e;
    } else {
      ProductWithin(-e, u);
      assert (-e) * u == -(e * u);
      assert Abs(e) == -e;
    }
  }

  lemma LerpGap(a: real, b: real, t: real)
    ensures Lerp(a, b, t) - b == (1.0 - t) * (a - b)
  {
    assert (b - a) * t == -((a - b) * t);
  }

  /** A non-negative `d` scaled by a factor in [0, 1] stays in [0, d]. */
  lemma ProductWithin(d: real, t: real)
    requires d >= 0.0 && 0.0 <= t <= 1.0
    ensures 0.0 <= d * t <= d
  {
    assert d * t <= d * 1.0;
  }

  function Pow(b: real, n: nat): real
  {
    if n == 0 then 1.0 else b * Pow(b, n - 1)
  }

  /** The value after `n` successive eases of `x` toward a fixed `target`, each
      applied to the result of the one before. */
  function Ease(x: real, target: real, t: real, n: nat): real
  {
    if n == 0 then x else Lerp(Ease(x, target, t, n - 1), target, t)
  }

  /** After `n` eases the remaining gap is exactly (1 - t)^n times the first one. */
  lemma {:induction false} EaseGap(x: real, target: real, t: real, n: nat)
    ensures Ease(x, target, t, n) - target == Pow(1.0 - t, n) * (x - target)
  {
    if n > 0 {
      var prev := Ease(x, target, t, n - 1);
      EaseGap(x, target, t, n - 1);
      LerpGap(prev, target, t);
      Regroup(1.0 - t, Pow(1.0 - t, n - 1), x - target);
    }
  }

  lemma Regroup(a: real, b: real, c: real)
    ensures a * (b * c) == (a * b) * c
  {
  }

  /** Repeated easing never overshoots: every intermediate value lies between the
      start and the target. */
  lemma {:induction false} EaseNeverOvershoots(x: real, target: real, t: real, n: nat)
    requires 0.0 <= t <= 1.0
    ensures Between(x, target, Ease(x, target, t, n))
  {
    if n > 0 {
      EaseNeverOvershoots(x, target, t, n - 1);
      LerpTowards(Ease(x, target, t, n - 1), target, t);
    }
  }

  /** Bernoulli's inequality for easing: after `n` eases the gap, multiplied by
      1 + n * t, is still at most the first gap. */
  lemma {:induction false} EaseBernoulli(x: real, target: real, t: real, n: nat)
    requires 0.0 <= t <= 1.0
    ensures Abs(Ease(x, target, t, n) - target) * (1.0 + n as real * t) <= Abs(x - target)
  {
    if n > 0 {
      var prev := Ease(x, target, t, n - 1);
      EaseBernoulli(x, target, t, n - 1);
      LerpTowards(prev, target, t);
      BernoulliStep(Abs(prev - target), (n - 1) as real, t, Abs(x - target));
    }
  }

  lemma BernoulliStep(h: real, k: real, t: real, g: real)
    requires 0.0 <= t <= 1.0 && k >= 0.0 && h >= 0.0
    requires h * (1.0 + k * t) <= g
    ensures (1.0 - t) * h * (1.0 + (k + 1.0) * t) <= g
  {
    assert (1.0 - t) * (1.0 + (k + 1.0) * t) == (1.0 + k * t) - t * t * (k + 1.0);
    assert t * t * (k + 1.0) >= 0.0;
    assert h * (t * t * (k + 1.0)) >= 0.0;
    assert (1.0 - t) * h * (1.0 + (k + 1.0) * t) == h * (1.0 + k * t) - h * (t * t * (k + 1.0));
  }

  /** Repeated easing with a factor in (0, 1] converges: for every tolerance there
      is a number of steps from which on the value stays within it of the target. */
  lemma EaseConverges(x: real, target: real, t: real, eps: real) returns (n: nat)
    requires 0.0 < t <= 1.0 && eps > 0.0
    ensures forall m: nat :: m >= n ==> Abs(Ease(x, target, t, m) - target) < eps
  {
    var gap := Abs(x - target);
    var et := eps * t;
    n := (gap / et).Floor as nat + 1;
    assert n as real * et > gap by {
      assert n as real > gap / et;
      assert (gap / et) * et == gap;
    }
    forall m: nat | m >= n
      ensures Abs(Ease(x, target, t, m) - target) < eps
    {
      EaseBernoulli(x, target, t, m);
      WithinTolerance(Abs(Ease(x, target, t, m) - target), m as real, t, eps, gap);
    }
  }

  lemma WithinTolerance(e: real, k: real, t: real, eps: real, gap: real)
    requires 0.0 < t && eps > 0.0 && e >= 0.0 && k >= 0.0
    requires e * (1.0 + k * t) <= gap < k * (eps * t)
    ensures e < eps
  {
    assert (1.0 + k * t) * eps == eps + k * (eps * t);
  }
}
