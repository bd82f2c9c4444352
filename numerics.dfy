/**
 * Numeric building blocks shared by every component: the supplied stand-ins for
 * the transcendental functions and for Math.random, 3D vectors, clamping and
 * the first-order smoothing step `v += (target - v) * alpha`.
 */
module Numerics {

  /** A square root supplied by the caller: only its non-negativity is relied on. */
  type Root = f: real -> real | forall x: real :: 0.0 <= f(x) witness (x: real) => 0.0

  /** `Math.pow(x, 0.25)` on the unit interval: maps [0,1] into [0,1]. */
  type UnitMap = f: real -> real | forall x: real :: 0.0 <= x <= 1.0 ==> 0.0 <= f(x) <= 1.0
    witness (x: real) => 0.0

  /** The stream of values `Math.random()` returns: draw k lies in [0,1). */
  type Draws = f: nat -> real | forall k: nat :: 0.0 <= f(k) < 1.0 witness (k: nat) => 0.0

  datatype Vec3 = Vec3(x: real, y: real, z: real)

  /** Entries 3i, 3i+1, 3i+2 of a flat coordinate buffer hold the vector v. */
  predicate HoldsAt(flat: seq<real>, i: nat, v: Vec3)
    requires 3 * i + 2 < |flat|
  {
    flat[3 * i] == v.x && flat[3 * i + 1] == v.y && flat[3 * i + 2] == v.z
  }

  const Origin := Vec3(0.0, 0.0, 0.0)

  /** Writes `x` to entries 3i, 3i+1, 3i+2 of a coordinate buffer. */
  method Put(a: array<real>, i: nat, x: Vec3)
    requires 3 * i + 2 < a.Length
    modifies a
    ensures HoldsAt(a[..], i, x)
    ensures forall k :: 0 <= k < a.Length && (k < 3 * i || 3 * i + 3 <= k) ==> a[k] == old(a[k])
  {
    a[3 * i], a[3 * i + 1], a[3 * i + 2] := x.x, x.y, x.z;
  }

  /** Slot j of `flat` holds `vs[j]` for every j. */
  predicate HoldsAll(flat: seq<real>, vs: seq<Vec3>)
    requires 3 * |vs| <= |flat|
  {
    forall j :: 0 <= j < |vs| ==> HoldsAt(flat, j, vs[j])
  }

  /** Writing the next vector without touching the earlier slots extends `HoldsAll`. */
  lemma HoldsAllExtend(before: seq<real>, after: seq<real>, vs: seq<Vec3>, v: Vec3)
    requires 3 * |vs| + 3 <= |before| == |after|
    requires HoldsAll(before, vs) && HoldsAt(after, |vs|, v)
    requires forall k :: 0 <= k < 3 * |vs| ==> after[k] == before[k]
    ensures HoldsAll(after, vs + [v])
  {
    var all := vs + [v];
    forall j | 0 <= j < |all|
      ensures HoldsAt(after, j, all[j])
    {
      if j < |vs| {
        assert HoldsAt(before, j, vs[j]);
        assert after[3 * j] == before[3 * j] && after[3 * j + 1] == before[3 * j + 1] && after[3 * j + 2] == before[3 * j + 2];
      }
    }
  }


  /** The direction of a firework particle from two uniform draws (`acos`, `sin`, `cos`),
      each component within [-1,1]. */
  type Direction = f: (real, real) -> Vec3 |
    forall u: real, v: real :: -1.0 <= f(u, v).x <= 1.0 && -1.0 <= f(u, v).y <= 1.0 && -1.0 <= f(u, v).z <= 1.0
    witness (u: real, v: real) => Vec3(0.0, 0.0, 1.0)

  function Min(a: real, b: real): (r: real)
    ensures r <= a && r <= b && (r == a || r == b)
  {
    if a <= b then a else b
  }

  function Max(a: real, b: real): (r: real)
    ensures a <= r && b <= r && (r == a || r == b)
  {
    if a >= b then a else b
  }

  function Abs(x: real): (r: real)
    ensures 0.0 <= r && (r == x || r == -x)
  {
    if x < 0.0 then -x else x
  }

  /** `Math.min(1, Math.max(0, x))`. */
  function Clamp01(x: real): (r: real)
    ensures 0.0 <= r <= 1.0
    ensures 0.0 <= x <= 1.0 ==> r == x
    ensures x < 0.0 ==> r == 0.0
    ensures x > 1.0 ==> r == 1.0
  {
    Min(1.0, Max(0.0, x))
  }

  /** One first-order smoothing step of `v` toward `target` at rate `alpha`. */
  function Smooth(v: real, target: real, alpha: real): real
  {
    v + (target - v) * alpha
  }

  /** The distance to the target shrinks by the factor 1 - alpha. */
  lemma SmoothContracts(v: real, target: real, alpha: real)
    ensures Smooth(v, target, alpha) - target == (1.0 - alpha) * (v - target)
  {
  }

  /** For a rate in [0,1] the smoothed value lies between the old value and the target:
      the step never overshoots. */
  lemma SmoothBetween(v: real, target: real, alpha: real)
    requires 0.0 <= alpha <= 1.0
    ensures Min(v, target) <= Smooth(v, target, alpha) <= Max(v, target)
  {
    var d := target - v;
    if d >= 0.0 {
      assert 0.0 <= d * alpha <= d * 1.0;
    } else {
      assert d * 1.0 <= d * alpha <= 0.0;
    }
  }

  /** Any interval holding both the value and the target also holds the smoothed value. */
  lemma SmoothStaysIn(v: real, target: real, alpha: real, lo: real, hi: real)
    requires 0.0 <= alpha <= 1.0
    requires lo <= v <= hi && lo <= target <= hi
    ensures lo <= Smooth(v, target, alpha) <= hi
  {
    SmoothBetween(v, target, alpha);
  }

  /** `(r - 0.5) * w`: a draw in [0,1) spread over the interval of width w centred on 0. */
  function Centered(r: real, w: real): (c: real)
    requires 0.0 <= r < 1.0 && 0.0 < w
    ensures -w / 2.0 <= c < w / 2.0
  {
    assert (1.0 - r) * w > 0.0;
    (r - 0.5) * w
  }

  /** |n * s| <= s / 2 when |n| <= 1/2 and s > 0. */
  lemma HalfScaled(n: real, s: real)
    requires -0.5 <= n <= 0.5 && 0.0 < s
    ensures -s * 0.5 <= n * s <= s * 0.5
  {
    if n >= 0.0 {
      assert n * s <= 0.5 * s;
    } else {
      assert -n * s <= 0.5 * s;
    }
  }

  /** The difference of two quotients by the same divisor is the quotient of the difference. */
  lemma DivSub(a: real, b: real, h: real)
    requires h != 0.0
    ensures a / h - b / h == (a - b) / h
  {
  }

  /** For a positive divisor, comparing a quotient with c is comparing the dividend with c * h. */
  lemma QuotientBelow(a: real, h: real, c: real)
    requires h > 0.0
    ensures a / h < c <==> a < c * h
    ensures a / h > c <==> a > c * h
  {
    assert a == (a / h) * h;
    if a / h < c {
      assert (a / h) * h < c * h;
    }
    if a / h > c {
      assert (a / h) * h > c * h;
    }
    if a < c * h {
      assert (a / h) * h < c * h;
    }
    if a > c * h {
      assert (a / h) * h > c * h;
    }
  }
  /** |a * t| <= 1 when |a| <= 1 and t in [0,1]. */
  lemma UnitProduct(a: real, t: real)
    requires -1.0 <= a <= 1.0 && 0.0 <= t <= 1.0
    ensures -1.0 <= a * t <= 1.0
  {
    if a >= 0.0 {
      assert a * t <= 1.0 * t;
    } else {
      assert -a * t <= 1.0 * t;
    }
  }

  /** Clamping keeps the order of its arguments. */
  lemma Clamp01Monotone(a: real, b: real)
    requires a <= b
    ensures Clamp01(a) <= Clamp01(b)
  {
  }

  function Plus(a: Vec3, b: Vec3): Vec3
  {
    Vec3(a.x + b.x, a.y + b.y, a.z + b.z)
  }

  function Minus(a: Vec3, b: Vec3): Vec3
  {
    Vec3(a.x - b.x, a.y - b.y, a.z - b.z)
  }

  function Scaled(v: Vec3, k: real): Vec3
  {
    Vec3(v.x * k, v.y * k, v.z * k)
  }

  /** The smoothing step applied to each axis of a vector. */
  function SmoothVec(v: Vec3, target: Vec3, alpha: real): Vec3
  {
    Vec3(Smooth(v.x, target.x, alpha), Smooth(v.y, target.y, alpha), Smooth(v.z, target.z, alpha))
  }

  /** `n` successive smoothing steps toward a fixed target, one per frame. */
  function SmoothSteps(v: real, target: real, alpha: real, n: nat): real
  {
    if n == 0 then v else Smooth(SmoothSteps(v, target, alpha, n - 1), target, alpha)
  }

  function Power(b: real, n: nat): real
  {
    if n == 0 then 1.0 else b * Power(b, n - 1)
  }

  /** After n frames the distance to a fixed target is (1 - alpha)^n times what it was. */
  lemma {:induction false} SmoothStepsContract(v: real, target: real, alpha: real, n: nat)
    ensures SmoothSteps(v, target, alpha, n) - target == Power(1.0 - alpha, n) * (v - target)
  {
    if n > 0 {
      var k, d := 1.0 - alpha, v - target;
      var before := SmoothSteps(v, target, alpha, n - 1);
      var p := Power(k, n - 1);
      SmoothStepsContract(v, target, alpha, n - 1);
      SmoothContracts(before, target, alpha);
      assert before - target == p * d;
      assert SmoothSteps(v, target, alpha, n) - target == k * (p * d);
      assert k * (p * d) == (k * p) * d;
    }
  }

  /** `Math.max(lastTs + 1, now)`: a detector timestamp strictly after the previous one and
      not before the clock, even when the clock has not moved. */
  function NextTimestamp(lastTs: real, now: real): (ts: real)
    ensures ts > lastTs && ts >= now
    ensures ts == lastTs + 1.0 || ts == now
  {
    Max(lastTs + 1.0, now)
  }
}
