/**
 * The heart target cloud: rejection sampling of the implicit 2D heart
 * `(x^2 + y^2 - 1)^3 - x^2 y^3 <= 0`, with a depth that grows toward the
 * interior, a bounded number of attempts and a fallback fill near the origin.
 */
module HeartCloud {
  import opened Numerics

  const MinX: real := -1.6
  const MaxX: real := 1.6
  const MinY: real := -1.8
  const MaxY: real := 1.8
  /** Scene units per unit of the heart field. */
  const Scale: real := 4.5
  const AttemptsPerPoint: nat := 400
  /** Half-width of the per-axis jitter added to accepted samples, `0.05 / 2`. */
  const JitterRadius: real := 0.025
  /** Bound on the depth coordinate of an accepted sample: `0.55 * Scale + JitterRadius`. */
  const DepthBound: real := 2.5
  /** Half-width of the fallback cloud, `0.8 / 2`. */
  const FallbackRadius: real := 0.4

  /** `heart2DField`: non-positive exactly inside the heart. */
  function Heart2DField(x: real, y: real): real
  {
    var a := x * x + y * y - 1.0;
    a * a * a - x * x * y * y * y
  }

  /** The heart is mirror-symmetric about the vertical axis. */
  lemma HeartFieldSymmetric(x: real, y: real)
    ensures Heart2DField(-x, y) == Heart2DField(x, y)
  {
    assert (-x) * (-x) == x * x;
  }

  datatype Sample = Sample(x: real, y: real)

  /** The sampling window [-1.6, 1.6) x [-1.8, 1.8). */
  predicate InWindow(s: Sample)
  {
    MinX <= s.x < MaxX && MinY <= s.y < MaxY
  }

  /** A sample the generator keeps: inside the window and inside the heart. */
  predicate Accepted(s: Sample)
  {
    InWindow(s) && Heart2DField(s.x, s.y) <= 0.0
  }

  /** Slot `i` of a cloud holds the scaled sample `s`, up to the jitter, with bounded depth. */
  predicate Near(cloud: seq<real>, i: nat, s: Sample)
    requires 3 * i + 2 < |cloud|
  {
    && Abs(cloud[3 * i] - s.x * Scale) <= JitterRadius
    && Abs(cloud[3 * i + 1] - s.y * Scale) <= JitterRadius
    && Abs(cloud[3 * i + 2]) <= DepthBound
  }

  /** Slot `i` of a cloud holds a fallback point: every coordinate in [-0.4, 0.4). */
  predicate FallbackSlot(cloud: seq<real>, i: nat)
    requires 3 * i + 2 < |cloud|
  {
    && -FallbackRadius <= cloud[3 * i] < FallbackRadius
    && -FallbackRadius <= cloud[3 * i + 1] < FallbackRadius
    && -FallbackRadius <= cloud[3 * i + 2] < FallbackRadius
  }

  /** A coordinate drawn as `lo + r * w` lies in [lo, lo + w). */
  lemma DrawInRange(r: real, lo: real, w: real)
    requires 0.0 <= r < 1.0 && 0.0 < w
    ensures lo <= lo + r * w < lo + w
  {
    assert (1.0 - r) * w > 0.0;
  }

  /** The depth of an accepted sample before scaling: `(r * 2 - 1) * (0.55 * t)` with t in [0,1]. */
  function Depth(r: real, t: real): (z: real)
    requires 0.0 <= r < 1.0 && 0.0 <= t <= 1.0
    ensures -0.55 <= z <= 0.55
  {
    UnitProduct(r * 2.0 - 1.0, t);
    assert (r * 2.0 - 1.0) * (0.55 * t) == 0.55 * ((r * 2.0 - 1.0) * t);
    (r * 2.0 - 1.0) * (0.55 * t)
  }

  /** The thickness factor of a sample, `Math.pow(clamp01(-f), 0.25)`: larger toward the
      interior of the heart, where the field is more negative. */
  function Thickness(quarter: UnitMap, s: Sample): (t: real)
    ensures 0.0 <= t <= 1.0
  {
    quarter(Clamp01(-Heart2DField(s.x, s.y)))
  }

  /** One sampling attempt: draws `x`, `y` in the window and, when the point lies inside
      the heart, the jittered scaled coordinates of the new slot. */
  method Attempt(rnd: Draws, quarter: UnitMap, next: nat)
    returns (accepted: bool, s: Sample, px: real, py: real, pz: real, after: nat)
    ensures s == Sample(MinX + rnd(next) * (MaxX - MinX), MinY + rnd(next + 1) * (MaxY - MinY))
    ensures InWindow(s)
    ensures accepted == Accepted(s)
    ensures accepted ==>
      && px == s.x * Scale + (rnd(next + 3) - 0.5) * 0.05
      && py == s.y * Scale + (rnd(next + 4) - 0.5) * 0.05
      && pz == Depth(rnd(next + 2), Thickness(quarter, s)) * Scale + (rnd(next + 5) - 0.5) * 0.05
    ensures accepted ==> Abs(px - s.x * Scale) <= JitterRadius && Abs(py - s.y * Scale) <= JitterRadius && Abs(pz) <= DepthBound
    ensures accepted ==> after == next + 6
    ensures !accepted ==> after == next + 2
  {
    DrawInRange(rnd(next), MinX, MaxX - MinX);
    DrawInRange(rnd(next + 1), MinY, MaxY - MinY);
    var x := MinX + rnd(next) * (MaxX - MinX);
    var y := MinY + rnd(next + 1) * (MaxY - MinY);
    s := Sample(x, y);
    var f := Heart2DField(x, y);
    accepted := f <= 0.0;
    px, py, pz, after := 0.0, 0.0, 0.0, next + 2;
    if accepted {
      var z := Depth(rnd(next + 2), Thickness(quarter, s));
      var jx, jy, jz := Centered(rnd(next + 3), 0.05), Centered(rnd(next + 4), 0.05), Centered(rnd(next + 5), 0.05);
      px, py, pz := x * Scale + jx, y * Scale + jy, z * Scale + jz;
      assert Abs(px - x * Scale) <= JitterRadius && Abs(py - y * Scale) <= JitterRadius;
      assert -2.475 <= z * Scale <= 2.475;
      after := next + 6;
    }
  }

  /**
   * `buildHeartTargets`: fills `count` points. Slots `0 .. filled` come from accepted samples,
   * the rest from the fallback cloud; at most `400 * count` sampling attempts are made.
   * `rnd` supplies the successive values of Math.random from position `cursor`; `quarter`
   * stands for `x => Math.pow(x, 0.25)` on [0,1].
   */
  method BuildHeartTargets(count: nat, rnd: Draws, quarter: UnitMap, cursor: nat)
    returns (cloud: seq<real>, next: nat, filled: nat, attempts: nat, ghost samples: seq<Sample>)
    ensures |cloud| == 3 * count
    ensures filled <= count && filled <= attempts <= AttemptsPerPoint * count
    ensures filled < count ==> attempts == AttemptsPerPoint * count
    ensures next == cursor + 2 * attempts + 4 * filled + 3 * (count - filled)
    ensures |samples| == filled
    ensures forall j :: 0 <= j < filled ==> Accepted(samples[j]) && Near(cloud, j, samples[j])
    ensures forall j :: filled <= j < count ==> FallbackSlot(cloud, j)
  {
    var out := new real[3 * count];
    filled, attempts, next, samples := SampleInto(out, count, rnd, quarter, cursor);
    ghost var sampled := out[..];
    next := FillFallback(out, filled, count, rnd, next);
    cloud := out[..];
    forall j | 0 <= j < filled
      ensures Near(cloud, j, samples[j])
    {
      assert Near(sampled, j, samples[j]);
      assert cloud[3 * j] == sampled[3 * j] && cloud[3 * j + 1] == sampled[3 * j + 1] && cloud[3 * j + 2] == sampled[3 * j + 2];
    }
  }

  /** Every sample of `samples` is accepted and held near its slot of `cloud`. */
  predicate Kept(cloud: seq<real>, samples: seq<Sample>)
    requires 3 * |samples| <= |cloud|
  {
    forall j :: 0 <= j < |samples| ==> Accepted(samples[j]) && Near(cloud, j, samples[j])
  }

  /** Writing an accepted sample to the next slot, and nothing below it, keeps `Kept`. */
  lemma KeptExtend(before: seq<real>, after: seq<real>, samples: seq<Sample>, s: Sample)
    requires 3 * |samples| + 3 <= |before| == |after|
    requires Kept(before, samples) && Accepted(s)
    requires forall k :: 0 <= k < 3 * |samples| ==> after[k] == before[k]
    requires Abs(after[3 * |samples|] - s.x * Scale) <= JitterRadius
    requires Abs(after[3 * |samples| + 1] - s.y * Scale) <= JitterRadius
    requires Abs(after[3 * |samples| + 2]) <= DepthBound
    ensures Kept(after, samples + [s])
  {
    var all := samples + [s];
    forall j | 0 <= j < |all|
      ensures Accepted(all[j]) && Near(after, j, all[j])
    {
      if j < |samples| {
        assert Near(before, j, samples[j]);
        assert after[3 * j] == before[3 * j] && after[3 * j + 1] == before[3 * j + 1] && after[3 * j + 2] == before[3 * j + 2];
      }
    }
  }

  /** The sampling loop of `buildHeartTargets`: writes accepted samples to slots `0 .. filled`. */
  method SampleInto(out: array<real>, count: nat, rnd: Draws, quarter: UnitMap, cursor: nat)
    returns (filled: nat, attempts: nat, next: nat, ghost samples: seq<Sample>)
    requires out.Length == 3 * count
    modifies out
    ensures filled <= count && filled <= attempts <= AttemptsPerPoint * count
    ensures filled < count ==> attempts == AttemptsPerPoint * count
    ensures next == cursor + 2 * attempts + 4 * filled
    ensures |samples| == filled
    ensures forall j :: 0 <= j < filled ==> Accepted(samples[j]) && Near(out[..], j, samples[j])
  {
    var maxAttempts := AttemptsPerPoint * count;
    var i := 0;
    attempts := 0;
    next := cursor;
    samples := [];

    while i < count && attempts < maxAttempts
      invariant i <= count && i <= attempts <= maxAttempts
      invariant next == cursor + 2 * attempts + 4 * i
      invariant |samples| == i
      invariant Kept(out[..], samples)
      decreases maxAttempts - attempts
    {
      attempts := attempts + 1;
      var accepted, s, px, py, pz;
      accepted, s, px, py, pz, next := Attempt(rnd, quarter, next);
      if accepted {
        ghost var before := out[..];
        var ix := i * 3;
        out[ix] := px;
        out[ix + 1] := py;
        out[ix + 2] := pz;
        KeptExtend(before, out[..], samples, s);
        samples := samples + [s];
        i := i + 1;
      }
    }
    filled := i;
  }

  /** The fallback fill of `buildHeartTargets`: slots `filled .. count` get points of the
      small cube around the origin; earlier slots are left as they are. */
  method FillFallback(out: array<real>, filled: nat, count: nat, rnd: Draws, cursor: nat) returns (next: nat)
    requires out.Length == 3 * count && filled <= count
    modifies out
    ensures forall k :: 0 <= k < 3 * filled ==> out[k] == old(out[k])
    ensures forall j :: filled <= j < count ==> FallbackSlot(out[..], j)
    ensures next == cursor + 3 * (count - filled)
  {
    var i := filled;
    next := cursor;
    while i < count
      invariant filled <= i <= count && next == cursor + 3 * (i - filled)
      invariant forall k :: 0 <= k < 3 * filled ==> out[k] == old(out[k])
      invariant forall j :: filled <= j < i ==>
        && -FallbackRadius <= out[3 * j] < FallbackRadius
        && -FallbackRadius <= out[3 * j + 1] < FallbackRadius
        && -FallbackRadius <= out[3 * j + 2] < FallbackRadius
    {
      var ix := i * 3;
      var fx, fy, fz := Centered(rnd(next), 0.8), Centered(rnd(next + 1), 0.8), Centered(rnd(next + 2), 0.8);
      out[ix], out[ix + 1], out[ix + 2] := fx, fy, fz;
      next := next + 3;
      i := i + 1;
    }
  }
}
