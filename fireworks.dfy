/**
 * Firework bursts: a right-hand fist launches a burst of 2400 sparks (at most one every
 * 700 ms); every frame each burst fades, its sparks fall under gravity and slow down by
 * drag, and a burst is removed once it is 1400 ms old.
 */
module Fireworks {
  import opened Numerics

  const BurstSize: nat := 2400
  const CooldownMs: real := 700.0
  const LifeMs: real := 1400.0
  const Gravity: real := -2.2
  const Drag: real := 0.985
  /** Width of the cube around the origin the sparks start in. */
  const StartSpread: real := 0.10
  const MinSpeed: real := 4.0
  const SpeedRange: real := 3.6
  const ColourJitter: real := 0.15
  /** Draws per spark: three for the start position, two for the direction, one for the
      speed and three for the colour. */
  const SparkDraws: nat := 9
  /** Draws for the base colour of a burst. */
  const BaseDraws: nat := 3

  /** A base colour channel, `0.75 + r * 0.25`. */
  function BaseChannel(r: real): (c: real)
    requires 0.0 <= r < 1.0
    ensures 0.75 <= c < 1.0
  {
    0.75 + r * 0.25
  }

  /** A spark's colour channel: the base plus a jitter of +-0.075, clamped to [0,1]. */
  function Channel(base: real, r: real): (c: real)
    requires 0.75 <= base < 1.0 && 0.0 <= r < 1.0
    ensures 0.675 <= c <= 1.0
  {
    Clamp01(base + Centered(r, ColourJitter))
  }

  /** `4.0 + r * 3.6`. */
  function Speed(r: real): (s: real)
    requires 0.0 <= r < 1.0
    ensures MinSpeed <= s < MinSpeed + SpeedRange
  {
    assert r * SpeedRange < SpeedRange;
    MinSpeed + r * SpeedRange
  }

  datatype Spark = Spark(pos: Vec3, vel: Vec3, col: Vec3)

  function BaseColour(rnd: Draws, k: nat): (c: Vec3)
  {
    Vec3(BaseChannel(rnd(k)), BaseChannel(rnd(k + 1)), BaseChannel(rnd(k + 2)))
  }

  /** The start position from three draws: within 0.05 of the origin on each axis. */
  function StartPosition(origin: Vec3, rnd: Draws, k: nat): (p: Vec3)
    ensures -0.05 <= p.x - origin.x < 0.05 && -0.05 <= p.y - origin.y < 0.05 && -0.05 <= p.z - origin.z < 0.05
  {
    Vec3(origin.x + Centered(rnd(k), StartSpread), origin.y + Centered(rnd(k + 1), StartSpread),
         origin.z + Centered(rnd(k + 2), StartSpread))
  }

  /** One velocity component: `d * sp` is at most `sp` in size. */
  function Component(d: real, sp: real): (c: real)
    requires -1.0 <= d <= 1.0 && 0.0 <= sp
    ensures -sp <= c <= sp
  {
    ScaledUnit(d, sp);
    d * sp
  }

  /** The velocity along direction `d` at speed `sp`. */
  function Velocity(d: Vec3, sp: real): (v: Vec3)
    requires -1.0 <= d.x <= 1.0 && -1.0 <= d.y <= 1.0 && -1.0 <= d.z <= 1.0 && 0.0 <= sp
    ensures -sp <= v.x <= sp && -sp <= v.y <= sp && -sp <= v.z <= sp
  {
    Vec3(Component(d.x, sp), Component(d.y, sp), Component(d.z, sp))
  }

  /** A spark's colour from three draws: every channel in [0.675, 1]. */
  function SparkColour(base: Vec3, rnd: Draws, k: nat): (c: Vec3)
    requires 0.75 <= base.x < 1.0 && 0.75 <= base.y < 1.0 && 0.75 <= base.z < 1.0
    ensures 0.675 <= c.x <= 1.0 && 0.675 <= c.y <= 1.0 && 0.675 <= c.z <= 1.0
  {
    Vec3(Channel(base.x, rnd(k)), Channel(base.y, rnd(k + 1)), Channel(base.z, rnd(k + 2)))
  }

  /** The spark made from the nine draws at `k`: start position near the origin, velocity
      along the drawn direction at the drawn speed (below 7.6 on every axis), colour
      jittered around the base. */
  function SparkAt(origin: Vec3, base: Vec3, rnd: Draws, dir: Direction, k: nat): (s: Spark)
    requires 0.75 <= base.x < 1.0 && 0.75 <= base.y < 1.0 && 0.75 <= base.z < 1.0
    ensures s.pos == StartPosition(origin, rnd, k) && s.col == SparkColour(base, rnd, k + 6)
    ensures var top := MinSpeed + SpeedRange;
      -top < s.vel.x < top && -top < s.vel.y < top && -top < s.vel.z < top
  {
    Spark(StartPosition(origin, rnd, k), Velocity(dir(rnd(k + 3), rnd(k + 4)), Speed(rnd(k + 5))),
          SparkColour(base, rnd, k + 6))
  }

  /** |d * s| <= s for |d| <= 1 and s >= 0. */
  lemma ScaledUnit(d: real, s: real)
    requires -1.0 <= d <= 1.0 && 0.0 <= s
    ensures -s <= d * s <= s
  {
    if d >= 0.0 {
      assert d * s <= 1.0 * s;
    } else {
      assert -d * s <= 1.0 * s;
    }
  }

  /** The sparks of a burst: spark i from the nine draws at `k + 9 * i`. */
  function Sparks(origin: Vec3, base: Vec3, rnd: Draws, dir: Direction, k: nat): (s: seq<Spark>)
    requires 0.75 <= base.x < 1.0 && 0.75 <= base.y < 1.0 && 0.75 <= base.z < 1.0
    ensures |s| == BurstSize
  {
    seq(BurstSize, i requires 0 <= i < BurstSize => SparkAt(origin, base, rnd, dir, k + SparkDraws * i))
  }

  /** The spark-filling loop of `spawnFirework`: the base colour from the first three
      draws, then spark i from the nine draws at `cursor + 3 + 9 * i`, written to the
      position, velocity and colour buffers. */
  method LaunchSparks(origin: Vec3, rnd: Draws, dir: Direction, cursor: nat)
    returns (pos: seq<real>, vel: seq<real>, col: seq<real>, next: nat)
    ensures |pos| == 3 * BurstSize && |vel| == 3 * BurstSize && |col| == 3 * BurstSize
    ensures next == cursor + BaseDraws + SparkDraws * BurstSize
    ensures var sparks := Sparks(origin, BaseColour(rnd, cursor), rnd, dir, cursor + BaseDraws);
      forall i :: 0 <= i < BurstSize ==>
        HoldsAt(pos, i, sparks[i].pos) && HoldsAt(vel, i, sparks[i].vel) && HoldsAt(col, i, sparks[i].col)
  {
    var base := BaseColour(rnd, cursor);
    var sparks := Sparks(origin, base, rnd, dir, cursor + BaseDraws);
    pos, vel, col := StoreSparks(sparks);
    next := cursor + BaseDraws + SparkDraws * BurstSize;
  }

  /** Writes every spark's position, velocity and colour to three flat buffers. */
  method StoreSparks(sparks: seq<Spark>) returns (pos: seq<real>, vel: seq<real>, col: seq<real>)
    ensures |pos| == 3 * |sparks| && |vel| == 3 * |sparks| && |col| == 3 * |sparks|
    ensures forall i :: 0 <= i < |sparks| ==>
      HoldsAt(pos, i, sparks[i].pos) && HoldsAt(vel, i, sparks[i].vel) && HoldsAt(col, i, sparks[i].col)
  {
    var p := new real[3 * |sparks|];
    var v := new real[3 * |sparks|];
    var c := new real[3 * |sparks|];
    for i := 0 to |sparks|
      invariant forall j :: 0 <= j < i ==> p[3 * j] == sparks[j].pos.x && p[3 * j + 1] == sparks[j].pos.y && p[3 * j + 2] == sparks[j].pos.z
      invariant forall j :: 0 <= j < i ==> v[3 * j] == sparks[j].vel.x && v[3 * j + 1] == sparks[j].vel.y && v[3 * j + 2] == sparks[j].vel.z
      invariant forall j :: 0 <= j < i ==> c[3 * j] == sparks[j].col.x && c[3 * j + 1] == sparks[j].col.y && c[3 * j + 2] == sparks[j].col.z
    {
      Put(p, i, sparks[i].pos);
      Put(v, i, sparks[i].vel);
      Put(c, i, sparks[i].col);
    }
    pos, vel, col := p[..], v[..], c[..];
  }

  /** `max(0, 1 - age / life)`: full at birth, gone once the burst has lived its life. */
  function Opacity(age: real, life: real): (o: real)
    requires life > 0.0
    ensures 0.0 <= o && (0.0 <= age ==> o <= 1.0)
    ensures age == 0.0 ==> o == 1.0
    ensures o == 0.0 <==> age >= life
  {
    QuotientBelow(age, life, 1.0);
    QuotientBelow(age, life, 0.0);
    Max(0.0, 1.0 - age / life)
  }

  /** Opacity only falls as a burst ages. */
  lemma OpacityFades(a1: real, a2: real, life: real)
    requires life > 0.0 && a1 <= a2
    ensures Opacity(a2, life) <= Opacity(a1, life)
  {
    DivSub(a2, a1, life);
    QuotientBelow(a2 - a1, life, 0.0);
  }

  /** Component k of a spark velocity after gravity has acted for `dt` (y components only). */
  function Kicked(vel: seq<real>, dt: real, k: nat): real
    requires k < |vel|
  {
    if k % 3 == 1 then vel[k] + Gravity * dt else vel[k]
  }

  /** Positions after one step: every coordinate moves by its kicked velocity times dt. */
  function Moved(pos: seq<real>, vel: seq<real>, dt: real): (r: seq<real>)
    requires |pos| == |vel|
    ensures |r| == |pos|
  {
    seq(|pos|, k requires 0 <= k < |pos| => pos[k] + Kicked(vel, dt, k) * dt)
  }

  /** Velocities after one step: kicked, then multiplied by the drag factor. */
  function Damped(vel: seq<real>, dt: real): (r: seq<real>)
    ensures |r| == |vel|
  {
    seq(|vel|, k requires 0 <= k < |vel| => Kicked(vel, dt, k) * Drag)
  }

  /** Without gravity's share, drag only shrinks a velocity: horizontal and depth
      components lose 1.5% of their size every step. */
  lemma DragShrinksHorizontal(vel: seq<real>, dt: real, k: nat)
    requires k < |vel| && k % 3 != 1
    ensures Abs(Damped(vel, dt)[k]) == Drag * Abs(vel[k])
  {
  }

  /** Gravity pulls down: a spark with no vertical velocity starts to fall. */
  lemma RestingSparkFalls(vel: seq<real>, dt: real, k: nat)
    requires k < |vel| && k % 3 == 1 && vel[k] == 0.0 && dt > 0.0
    ensures Damped(vel, dt)[k] < 0.0
  {
  }

  class Burst {
    /** Spark positions, three entries per spark, advanced in place every frame. */
    const pos: array<real>
    /** Spark velocities, three entries per spark, advanced in place every frame. */
    const vel: array<real>
    const col: seq<real>
    const bornMs: real
    const lifeMs: real
    var opacity: real

    predicate Valid()
    {
      && pos.Length == 3 * BurstSize && vel.Length == 3 * BurstSize && |col| == 3 * BurstSize
      && pos != vel && lifeMs == LifeMs
    }

    constructor (p: seq<real>, v: seq<real>, c: seq<real>, now: real)
      requires |p| == 3 * BurstSize && |v| == 3 * BurstSize && |c| == 3 * BurstSize
      ensures Valid() && fresh(pos) && fresh(vel)
      ensures pos[..] == p && vel[..] == v && col == c
      ensures bornMs == now && opacity == 1.0
    {
      pos := new real[|p|](k requires 0 <= k < |p| => p[k]);
      vel := new real[|v|](k requires 0 <= k < |v| => v[k]);
      col := c;
      bornMs := now;
      lifeMs := LifeMs;
      opacity := 1.0;
    }

    /** The burst as `spawnFirework(origin)` creates it at `now`, from the draws starting at
        `cursor`: born now, fully opaque, and spark i holding `Sparks(...)[i]`. */
    ghost predicate Launched(origin: Vec3, now: real, rnd: Draws, dir: Direction, cursor: nat)
      requires Valid()
      reads this, pos, vel
    {
      && bornMs == now && lifeMs == LifeMs && opacity == 1.0
      && var sparks := Sparks(origin, BaseColour(rnd, cursor), rnd, dir, cursor + BaseDraws);
         forall i :: 0 <= i < BurstSize ==>
           HoldsAt(pos[..], i, sparks[i].pos) && HoldsAt(vel[..], i, sparks[i].vel) && HoldsAt(col, i, sparks[i].col)
    }

    /** The burst's buffers hold `p0` and `v0`. */
    ghost predicate Holds(p0: seq<real>, v0: seq<real>)
      reads pos, vel
    {
      pos[..] == p0 && vel[..] == v0
    }

    /** The burst has had its frame at `now`: opacity from its age, sparks one step on
        from `p0` and `v0`. */
    ghost predicate Stepped(p0: seq<real>, v0: seq<real>, dt: real, now: real)
      requires Valid() && |p0| == |v0|
      reads this, pos, vel
    {
      && opacity == Opacity(now - bornMs, lifeMs)
      && pos[..] == Moved(p0, v0, dt)
      && vel[..] == Damped(v0, dt)
    }

    /** The inner loop of `updateFireworks`: one physics step for every spark. */
    method Step(dt: real)
      requires Valid()
      modifies pos, vel
      ensures pos[..] == Moved(old(pos[..]), old(vel[..]), dt)
      ensures vel[..] == Damped(old(vel[..]), dt)
    {
      ghost var p0, v0 := pos[..], vel[..];
      ghost var p1, v1 := Moved(p0, v0, dt), Damped(v0, dt);
      var s := 0;
      while s < BurstSize
        invariant 0 <= s <= BurstSize
        invariant forall k :: 0 <= k < 3 * s ==> pos[k] == p1[k] && vel[k] == v1[k]
        invariant forall k :: 3 * s <= k < pos.Length ==> pos[k] == p0[k] && vel[k] == v0[k]
      {
        var p := 3 * s;
        assert p % 3 == 0 && (p + 1) % 3 == 1 && (p + 2) % 3 == 2;
        assert Kicked(v0, dt, p) == v0[p] && Kicked(v0, dt, p + 2) == v0[p + 2];
        assert Kicked(v0, dt, p + 1) == v0[p + 1] + Gravity * dt;
        Advance(p, dt);
        assert pos[p] == p1[p] && pos[p + 1] == p1[p + 1] && pos[p + 2] == p1[p + 2];
        assert vel[p] == v1[p] && vel[p + 1] == v1[p + 1] && vel[p + 2] == v1[p + 2];
        forall k | 0 <= k < p + 3
          ensures pos[k] == p1[k] && vel[k] == v1[k]
        {
          if k >= p {
            assert k == p || k == p + 1 || k == p + 2;
          }
        }
        s := s + 1;
      }
      assert pos[..] == p1;
      assert vel[..] == v1;
    }

    /** One frame of `updateFireworks` for this burst at time `now`. */
    method Tick(dt: real, now: real)
      requires Valid()
      modifies this, pos, vel
      ensures opacity == Opacity(now - bornMs, lifeMs)
      ensures pos[..] == Moved(old(pos[..]), old(vel[..]), dt)
      ensures vel[..] == Damped(old(vel[..]), dt)
    {
      opacity := Opacity(now - bornMs, lifeMs);
      Step(dt);
    }

    /** One spark of the step: gravity on the vertical velocity, then the position moves
        by the new velocity, then drag. Entries of other sparks stay as they are. */
    method Advance(p: nat, dt: real)
      requires Valid() && p % 3 == 0 && p + 2 < pos.Length
      modifies pos, vel
      ensures pos[p] == old(pos[p]) + old(vel[p]) * dt && vel[p] == old(vel[p]) * Drag
      ensures var vy := old(vel[p + 1]) + Gravity * dt;
        pos[p + 1] == old(pos[p + 1]) + vy * dt && vel[p + 1] == vy * Drag
      ensures pos[p + 2] == old(pos[p + 2]) + old(vel[p + 2]) * dt && vel[p + 2] == old(vel[p + 2]) * Drag
      ensures forall k :: 0 <= k < pos.Length && (k < p || p + 3 <= k) ==> pos[k] == old(pos[k]) && vel[k] == old(vel[k])
    {
      var vx, vy, vz := vel[p], vel[p + 1] + Gravity * dt, vel[p + 2];
      pos[p], pos[p + 1], pos[p + 2] := pos[p] + vx * dt, pos[p + 1] + vy * dt, pos[p + 2] + vz * dt;
      vel[p], vel[p + 1], vel[p + 2] := vx * Drag, vy * Drag, vz * Drag;
    }
  }

  /** A burst is still on screen at `now`. */
  predicate Alive(b: Burst, now: real)
  {
    now - b.bornMs < b.lifeMs
  }

  /** The bursts still alive at `now`, in their original order. */
  function Survivors(bs: seq<Burst>, now: real): (r: seq<Burst>)
    ensures |r| <= |bs|
  {
    if |bs| == 0 then []
    else (if Alive(bs[0], now) then [bs[0]] else []) + Survivors(bs[1..], now)
  }

  /** A burst survives exactly when it was there and is still alive. */
  lemma {:induction false} SurvivorsExactly(bs: seq<Burst>, now: real)
    ensures forall b :: b in Survivors(bs, now) <==> b in bs && Alive(b, now)
  {
    if |bs| > 0 {
      SurvivorsExactly(bs[1..], now);
      assert bs == [bs[0]] + bs[1..];
    }
  }

  /** Bursts in launch order, each launched at least 700 ms after the one before. */
  predicate Spaced(bs: seq<Burst>)
  {
    forall i, j :: 0 <= i < j < |bs| ==> bs[i].bornMs + CooldownMs <= bs[j].bornMs
  }

  /** Removing dead bursts keeps the launch spacing. */
  lemma {:induction false} SurvivorsSpaced(bs: seq<Burst>, now: real)
    requires Spaced(bs)
    ensures Spaced(Survivors(bs, now))
    ensures forall b :: b in Survivors(bs, now) ==> b in bs
  {
    if |bs| > 0 {
      SurvivorsSpaced(bs[1..], now);
      assert bs == [bs[0]] + bs[1..];
      SurvivorsExactly(bs[1..], now);
      var rest := Survivors(bs[1..], now);
      forall j | 0 <= j < |rest|
        ensures bs[0].bornMs + CooldownMs <= rest[j].bornMs
      {
        assert rest[j] in rest;
        assert rest[j] in bs[1..];
        var m :| 0 <= m < |bs[1..]| && bs[1..][m] == rest[j];
        assert bs[m + 1] == rest[j];
      }
    }
  }

  /** Among spaced bursts that are all alive, the third was launched after `now`. */
  lemma ThirdIsUnborn(s: seq<Burst>, now: real)
    requires Spaced(s)
    requires forall b :: b in s ==> Alive(b, now) && b.lifeMs == LifeMs
    ensures |s| > 2 ==> s[2] in s && s[2].bornMs > now
  {
    if |s| > 2 {
      assert s[0] in s;
      assert s[0].bornMs + CooldownMs <= s[1].bornMs && s[1].bornMs + CooldownMs <= s[2].bornMs;
    }
  }

  /** With launches spaced 700 ms apart and a life of 1400 ms, no more than two bursts are
      alive at any moment after the last launch. */
  lemma AtMostTwoAlive(bs: seq<Burst>, now: real)
    requires Spaced(bs)
    requires forall b :: b in bs ==> b.bornMs <= now && b.lifeMs == LifeMs
    ensures |Survivors(bs, now)| <= 2
  {
    var s := Survivors(bs, now);
    SurvivorsSpaced(bs, now);
    SurvivorsExactly(bs, now);
    ThirdIsUnborn(s, now);
  }

  /** The objects a list of bursts updates in place. */
  function Footprint(bs: seq<Burst>): set<object>
  {
    (set b | b in bs :: b as object) + (set b | b in bs :: b.pos as object) + (set b | b in bs :: b.vel as object)
  }

  /** No burst is listed twice. */
  predicate NoRepeats(bs: seq<Burst>)
  {
    forall i, j :: 0 <= i < j < |bs| ==> bs[i] != bs[j]
  }

  /** Different bursts share no buffer. */
  predicate Separate(bs: seq<Burst>)
  {
    forall a, b :: a in bs && b in bs && a != b ==> a.pos != b.pos && a.vel != b.vel && a.pos != b.vel
  }

  /** `Separate` and `NoRepeats` stated by position. */
  predicate SeparateAt(bs: seq<Burst>)
  {
    forall j, k :: 0 <= j < |bs| && 0 <= k < |bs| && j != k ==>
      bs[j] != bs[k] && bs[j].pos != bs[k].pos && bs[j].vel != bs[k].vel && bs[j].pos != bs[k].vel
  }

  lemma SeparateByPosition(bs: seq<Burst>)
    requires NoRepeats(bs) && Separate(bs)
    ensures SeparateAt(bs)
  {
    forall j, k | 0 <= j < |bs| && 0 <= k < |bs| && j != k
      ensures bs[j] != bs[k] && bs[j].pos != bs[k].pos && bs[j].vel != bs[k].vel && bs[j].pos != bs[k].vel
    {
      assert bs[j] in bs && bs[k] in bs;
      if j < k {
        assert bs[j] != bs[k];
      } else {
        assert bs[k] != bs[j];
      }
    }
  }

  /** One step of the reverse loop: the survivors from position i on. */
  lemma SurvivorsStep(bs: seq<Burst>, i: nat, now: real)
    requires i < |bs|
    ensures Survivors(bs[i..], now) == (if Alive(bs[i], now) then [bs[i]] else []) + Survivors(bs[i + 1..], now)
  {
    assert bs[i..][1..] == bs[i + 1..];
  }

  /** One step of the reverse loop on the list it filters: the burst at `i` is still in
      place, and removing it exactly when it is dead extends the filtered suffix by one. */
  lemma SurvivorsSplice(all: seq<Burst>, live: seq<Burst>, i: nat, now: real)
    requires i < |all| && live == all[..i + 1] + Survivors(all[i + 1..], now)
    ensures i < |live| && live[i] == all[i] && all[i] in all
    ensures Alive(all[i], now) ==> live == all[..i] + Survivors(all[i..], now)
    ensures !Alive(all[i], now) ==> live[..i] + live[i + 1..] == all[..i] + Survivors(all[i..], now)
  {
    SurvivorsStep(all, i, now);
    var rest := Survivors(all[i + 1..], now);
    assert all[..i + 1] == all[..i] + [all[i]];
    assert live == all[..i] + ([all[i]] + rest);
    if !Alive(all[i], now) {
      assert live[..i] == all[..i] && live[i + 1..] == rest;
    }
  }

  lemma {:induction false} SurvivorsNoRepeats(bs: seq<Burst>, now: real)
    requires NoRepeats(bs)
    ensures NoRepeats(Survivors(bs, now))
  {
    if |bs| > 0 {
      SurvivorsNoRepeats(bs[1..], now);
      SurvivorsExactly(bs[1..], now);
      assert bs[0] !in bs[1..];
    }
  }

  /** A list of bursts as the firework state keeps it: no burst twice, no shared buffers,
      launches spaced by the cooldown and none after the last launch time. */
  predicate WellFormed(bs: seq<Burst>, lastMs: real)
  {
    && NoRepeats(bs) && Separate(bs)
    && (forall b :: b in bs ==> b.Valid() && b.bornMs <= lastMs)
    && Spaced(bs)
  }

  /** Appending a burst born at `now`, at least 700 ms after the last launch and sharing no
      object with the listed bursts, keeps the list well formed. */
  lemma AppendWellFormed(bs: seq<Burst>, lastMs: real, b: Burst, now: real)
    requires WellFormed(bs, lastMs) && b.Valid() && b.bornMs == now && now - lastMs >= CooldownMs
    requires forall x :: x in bs ==> x != b && x.pos != b.pos && x.vel != b.vel && x.pos != b.vel && x.vel != b.pos
    ensures WellFormed(bs + [b], now)
  {
    var r := bs + [b];
    forall i, j | 0 <= i < j < |r| ensures r[i].bornMs + CooldownMs <= r[j].bornMs {
      if j == |bs| {
        assert r[i] in bs;
      } else {
        assert r[i] == bs[i] && r[j] == bs[j];
      }
    }
    forall i, j | 0 <= i < j < |r| ensures r[i] != r[j] {
      if j == |bs| {
        assert r[i] in bs;
      } else {
        assert r[i] == bs[i] && r[j] == bs[j];
      }
    }
  }

  /** Removing dead bursts keeps the list well formed. */
  lemma SurvivorsWellFormed(bs: seq<Burst>, lastMs: real, now: real)
    requires WellFormed(bs, lastMs)
    ensures WellFormed(Survivors(bs, now), lastMs)
  {
    SurvivorsSpaced(bs, now);
    SurvivorsExactly(bs, now);
    SurvivorsNoRepeats(bs, now);
  }

  /** The spark positions of every burst in the list. */
  ghost function Positions(bs: seq<Burst>): (ps: seq<seq<real>>)
    reads set b | b in bs :: b.pos
    ensures |ps| == |bs| && forall j :: 0 <= j < |bs| ==> ps[j] == bs[j].pos[..]
  {
    seq(|bs|, j requires 0 <= j < |bs| reads if 0 <= j < |bs| then {bs[j].pos} else {} => bs[j].pos[..])
  }

  /** The spark velocities of every burst in the list. */
  ghost function Velocities(bs: seq<Burst>): (vs: seq<seq<real>>)
    reads set b | b in bs :: b.vel
    ensures |vs| == |bs| && forall j :: 0 <= j < |bs| ==> vs[j] == bs[j].vel[..]
  {
    seq(|bs|, j requires 0 <= j < |bs| reads if 0 <= j < |bs| then {bs[j].vel} else {} => bs[j].vel[..])
  }

  /** The frame of `updateFireworks` for the burst at position `i` of the reverse loop:
      before it, the bursts after `i` have had their frame and the others still hold their
      start buffers `p0`, `v0`; after it, the same holds with `i` among the former. */
  ghost predicate Midway(all: seq<Burst>, p0: seq<seq<real>>, v0: seq<seq<real>>, i: nat, dt: real, now: real)
    requires i <= |all| == |p0| == |v0|
    requires forall j :: 0 <= j < |all| ==> all[j].Valid() && |p0[j]| == |v0[j]|
    reads set j | 0 <= j < |all| :: all[j]
    reads set j | 0 <= j < |all| :: all[j].pos
    reads set j | 0 <= j < |all| :: all[j].vel
  {
    && (forall j :: 0 <= j < i ==> all[j].Holds(p0[j], v0[j]))
    && (forall j :: i <= j < |all| ==> all[j].Stepped(p0[j], v0[j], dt, now))
  }

  method TickAt(all: seq<Burst>, i: nat, ghost p0: seq<seq<real>>, ghost v0: seq<seq<real>>, dt: real, now: real)
    requires i < |all| == |p0| == |v0| && SeparateAt(all)
    requires forall j :: 0 <= j < |all| ==> all[j].Valid() && |p0[j]| == |v0[j]|
    requires Midway(all, p0, v0, i + 1, dt, now)
    modifies all[i], all[i].pos, all[i].vel
    ensures Midway(all, p0, v0, i, dt, now)
  {
    var fw := all[i];
    assert fw.Holds(p0[i], v0[i]);
    fw.Tick(dt, now);
    forall j | 0 <= j < |all| && j != i
      ensures all[j].opacity == old(all[j].opacity) && all[j].pos[..] == old(all[j].pos[..]) && all[j].vel[..] == old(all[j].vel[..])
    {
      assert all[j] != fw && all[j].pos != fw.pos && all[j].vel != fw.vel && all[j].pos != fw.vel && fw.pos != all[j].vel;
    }
  }

  /** The reverse loop of `updateFireworks` over the list `all`: every burst has its frame,
      and the result is the list without the bursts that reached the end of their life. */
  method TickAll(all: seq<Burst>, dt: real, now: real) returns (live: seq<Burst>)
    requires NoRepeats(all) && Separate(all) && forall b :: b in all ==> b.Valid()
    modifies Footprint(all)
    ensures live == Survivors(all, now)
    ensures forall j :: 0 <= j < |all| ==> all[j].Stepped(old(all[j].pos[..]), old(all[j].vel[..]), dt, now)
  {
    ghost var p0 := Positions(all);
    ghost var v0 := Velocities(all);
    SeparateByPosition(all);
    live := all;
    var i := |live|;
    while i > 0
      invariant 0 <= i <= |all|
      invariant SeparateAt(all)
      invariant |p0| == |v0| == |all|
      invariant forall j :: 0 <= j < |all| ==> all[j].Valid() && |p0[j]| == |v0[j]|
      invariant live == all[..i] + Survivors(all[i..], now)
      invariant Midway(all, p0, v0, i, dt, now)
    {
      i := i - 1;
      SurvivorsSplice(all, live, i, now);
      var fw := live[i];
      var age := now - fw.bornMs;
      TickAt(all, i, p0, v0, dt, now);
      if age >= fw.lifeMs {
        live := live[..i] + live[i + 1..];
      }
    }
    assert all[..0] == [] && all[0..] == all;
  }

  /** The module-level firework state: the live bursts and the time of the last launch. */
  class FireworkSystem {
    var lastFireworkMs: real
    var bursts: seq<Burst>

    ghost predicate Valid()
      reads this
    {
      WellFormed(bursts, lastFireworkMs)
    }

    constructor ()
      ensures Valid() && lastFireworkMs == 0.0 && bursts == []
    {
      lastFireworkMs := 0.0;
      bursts := [];
    }

    /** `spawnFirework(origin)` at time `now`: nothing within 700 ms of the last launch,
        otherwise a new burst of 2400 sparks appended to the list. */
    method Spawn(origin: Vec3, now: real, rnd: Draws, dir: Direction, cursor: nat) returns (next: nat)
      requires Valid()
      modifies this
      ensures Valid()
      ensures now - old(lastFireworkMs) < CooldownMs ==>
        lastFireworkMs == old(lastFireworkMs) && bursts == old(bursts) && next == cursor
      ensures now - old(lastFireworkMs) >= CooldownMs ==>
        && lastFireworkMs == now && |bursts| == |old(bursts)| + 1 && bursts[..|old(bursts)|] == old(bursts)
        && var b := bursts[|old(bursts)|];
           && fresh(b) && fresh(b.pos) && fresh(b.vel) && b.Valid() && b.Launched(origin, now, rnd, dir, cursor)
           && next == cursor + BaseDraws + SparkDraws * BurstSize
    {
      if now - lastFireworkMs < CooldownMs {
        return cursor;
      }
      lastFireworkMs := now;
      var p, v, c;
      p, v, c, next := LaunchSparks(origin, rnd, dir, cursor);
      var b := new Burst(p, v, c, now);
      AppendWellFormed(bursts, old(lastFireworkMs), b, now);
      bursts := bursts + [b];
      assert bursts[..|old(bursts)|] == old(bursts);
    }

    /** `updateFireworks(dt)` at time `now`: every burst's opacity is set from its age and
        its sparks take one step; bursts aged `lifeMs` or more are removed, the others keep
        their order. */
    method Update(dt: real, now: real)
      requires Valid()
      modifies this, Footprint(bursts)
      ensures Valid() && lastFireworkMs == old(lastFireworkMs)
      ensures bursts == Survivors(old(bursts), now)
      ensures forall b :: b in old(bursts) ==> b.Stepped(old(b.pos[..]), old(b.vel[..]), dt, now)
    {
      var all := bursts;
      ghost var last := lastFireworkMs;
      assert WellFormed(all, last);
      var live := TickAll(all, dt, now);
      bursts := live;
      SurvivorsWellFormed(all, last, now);
    }
  }
}
