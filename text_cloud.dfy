/**
 * The sampling half of `buildTextTargets`: the lit pixels of the rasterised phrase are
 * collected in row-major order, their bounding box is measured, and every target point
 * is a randomly chosen lit pixel normalised to the box, scaled into scene units and given
 * a depth that is largest near the horizontal centre. With fewer than 10 lit pixels a
 * small random cloud is used instead. The RGBA data of the 1400 x 360 canvas is an input.
 */
module TextCloud {
  import opened Numerics
  import opened TextLayout

  /** Fewer lit pixels than this and the fallback cloud is used. */
  const MinLitPixels: nat := 10
  const AlphaThreshold: int := 10
  const RedThreshold: int := 200
  /** Scene height of the text block. */
  const HeightScale: real := 5.0
  /** Scene depth scale: `sz * 0.18` with `sz = 1.2`. */
  const DepthScale: real := 0.216
  /** Half-width of the per-axis jitter, `0.01 / 2`. */
  const Jitter: real := 0.005
  /** Draws per target point on the text path and on the fallback path. */
  const TextDraws: nat := 5
  const FallbackDraws: nat := 3

  type Byte = b: int | 0 <= b < 256

  /** RGBA data of the whole canvas. */
  predicate IsCanvas(data: seq<Byte>)
  {
    |data| == CanvasWidth * CanvasHeight * 4
  }

  datatype Pixel = Pixel(x: int, y: int)

  predicate OnCanvas(p: Pixel)
  {
    0 <= p.x < CanvasWidth && 0 <= p.y < CanvasHeight
  }

  /** The pixel at column x, row y is opaque enough and bright red enough. */
  predicate Lit(data: seq<Byte>, x: int, y: int)
    requires IsCanvas(data) && 0 <= x < CanvasWidth && 0 <= y < CanvasHeight
  {
    var idx := (y * CanvasWidth + x) * 4;
    data[idx + 3] > AlphaThreshold && data[idx] > RedThreshold
  }

  /** The lit pixels among the first x columns of row y, left to right. */
  function RowLit(data: seq<Byte>, y: int, x: int): seq<Pixel>
    requires IsCanvas(data) && 0 <= y < CanvasHeight && 0 <= x <= CanvasWidth
  {
    if x == 0 then []
    else RowLit(data, y, x - 1) + (if Lit(data, x - 1, y) then [Pixel(x - 1, y)] else [])
  }

  /** The lit pixels of the first y rows, in row-major order. */
  function ScanRows(data: seq<Byte>, y: int): seq<Pixel>
    requires IsCanvas(data) && 0 <= y <= CanvasHeight
  {
    if y == 0 then [] else ScanRows(data, y - 1) + RowLit(data, y - 1, CanvasWidth)
  }

  function LitPixels(data: seq<Byte>): seq<Pixel>
    requires IsCanvas(data)
  {
    ScanRows(data, CanvasHeight)
  }

  lemma {:induction false} RowLitMembers(data: seq<Byte>, y: int, x: int)
    requires IsCanvas(data) && 0 <= y < CanvasHeight && 0 <= x <= CanvasWidth
    ensures forall p :: p in RowLit(data, y, x) <==> p.y == y && 0 <= p.x < x && Lit(data, p.x, y)
  {
    if x > 0 {
      RowLitMembers(data, y, x - 1);
    }
  }

  lemma {:induction false} ScanRowsMembers(data: seq<Byte>, y: int)
    requires IsCanvas(data) && 0 <= y <= CanvasHeight
    ensures forall p :: p in ScanRows(data, y) <==> 0 <= p.y < y && 0 <= p.x < CanvasWidth && Lit(data, p.x, p.y)
  {
    if y > 0 {
      ScanRowsMembers(data, y - 1);
      RowLitMembers(data, y - 1, CanvasWidth);
    }
  }

  /** The scan keeps exactly the lit pixels of the canvas. */
  lemma LitPixelsExactly(data: seq<Byte>)
    requires IsCanvas(data)
    ensures forall p :: p in LitPixels(data) <==> OnCanvas(p) && Lit(data, p.x, p.y)
  {
    ScanRowsMembers(data, CanvasHeight);
  }

  /** The nested scan over rows and columns, pushing every lit pixel. */
  method ScanLitPixels(data: seq<Byte>) returns (pts: seq<Pixel>)
    requires IsCanvas(data)
    ensures pts == LitPixels(data)
    ensures forall p :: p in pts <==> OnCanvas(p) && Lit(data, p.x, p.y)
  {
    pts := [];
    var y := 0;
    while y < CanvasHeight
      invariant 0 <= y <= CanvasHeight
      invariant pts == ScanRows(data, y)
    {
      var x := 0;
      while x < CanvasWidth
        invariant 0 <= x <= CanvasWidth
        invariant pts == ScanRows(data, y) + RowLit(data, y, x)
      {
        var idx := (y * CanvasWidth + x) * 4;
        var a := data[idx + 3];
        var r := data[idx];
        if a > AlphaThreshold && r > RedThreshold {
          pts := pts + [Pixel(x, y)];
        }
        x := x + 1;
      }
      y := y + 1;
    }
    LitPixelsExactly(data);
  }

  datatype Box = Box(minX: int, maxX: int, minY: int, maxY: int)

  function Extend(b: Box, p: Pixel): Box
  {
    Box(if p.x < b.minX then p.x else b.minX, if p.x > b.maxX then p.x else b.maxX,
        if p.y < b.minY then p.y else b.minY, if p.y > b.maxY then p.y else b.maxY)
  }

  /** The running bounding box of a non-empty list of pixels. */
  function Bounds(pts: seq<Pixel>): Box
    requires |pts| >= 1
  {
    if |pts| == 1 then Box(pts[0].x, pts[0].x, pts[0].y, pts[0].y)
    else Extend(Bounds(pts[..|pts| - 1]), pts[|pts| - 1])
  }

  predicate Encloses(b: Box, pts: seq<Pixel>)
  {
    forall i :: 0 <= i < |pts| ==> b.minX <= pts[i].x <= b.maxX && b.minY <= pts[i].y <= b.maxY
  }

  /** Every side of the box touches some pixel. */
  predicate Tight(b: Box, pts: seq<Pixel>)
  {
    && (exists i :: 0 <= i < |pts| && pts[i].x == b.minX)
    && (exists i :: 0 <= i < |pts| && pts[i].x == b.maxX)
    && (exists i :: 0 <= i < |pts| && pts[i].y == b.minY)
    && (exists i :: 0 <= i < |pts| && pts[i].y == b.maxY)
  }

  /** The bounding box holds every pixel and is the smallest box that does. */
  lemma {:induction false} BoundsTight(pts: seq<Pixel>)
    requires |pts| >= 1
    ensures Encloses(Bounds(pts), pts) && Tight(Bounds(pts), pts)
    decreases |pts|
  {
    if |pts| > 1 {
      var init := pts[..|pts| - 1];
      BoundsTight(init);
      assert forall i :: 0 <= i < |init| ==> init[i] == pts[i];
      var b := Bounds(init);
      var last := |pts| - 1;
      if pts[last].x >= b.minX {
        var i :| 0 <= i < |init| && init[i].x == b.minX;
        assert pts[i].x == Bounds(pts).minX;
      }
      if pts[last].x <= b.maxX {
        var i :| 0 <= i < |init| && init[i].x == b.maxX;
        assert pts[i].x == Bounds(pts).maxX;
      }
      if pts[last].y >= b.minY {
        var i :| 0 <= i < |init| && init[i].y == b.minY;
        assert pts[i].y == Bounds(pts).minY;
      }
      if pts[last].y <= b.maxY {
        var i :| 0 <= i < |init| && init[i].y == b.maxY;
        assert pts[i].y == Bounds(pts).maxY;
      }
    }
  }

  /** The min/max loop over the lit pixels. The source starts from +-Infinity; starting from
      the first pixel gives the same box, since comparing it with itself changes nothing. */
  method BoundingBox(pts: seq<Pixel>) returns (box: Box)
    requires |pts| >= 1
    ensures box == Bounds(pts)
    ensures Encloses(box, pts) && Tight(box, pts)
  {
    box := Box(pts[0].x, pts[0].x, pts[0].y, pts[0].y);
    for i := 1 to |pts|
      invariant box == Bounds(pts[..i])
    {
      var x := pts[i].x;
      var y := pts[i].y;
      assert pts[..i + 1][..i] == pts[..i];
      if x < box.minX { box := box.(minX := x); }
      if x > box.maxX { box := box.(maxX := x); }
      if y < box.minY { box := box.(minY := y); }
      if y > box.maxY { box := box.(maxY := y); }
    }
    assert pts[..|pts|] == pts;
    BoundsTight(pts);
  }

  /** `Math.max(1, hi - lo)`. */
  function Span(lo: int, hi: int): (s: int)
    ensures s >= 1 && s >= hi - lo
    ensures s == 1 || s == hi - lo
  {
    if hi - lo > 1 then hi - lo else 1
  }

  /** Position of `p` across the span, shifted to be centred on 0. */
  function Normalize(p: int, lo: int, span: int): (n: real)
    requires lo <= p <= lo + span && span >= 1
    ensures -0.5 <= n <= 0.5
    ensures p == lo ==> n == -0.5
    ensures p == lo + span ==> n == 0.5
  {
    var q := (p - lo) as real / span as real;
    assert q <= 1.0 by {
      assert (p - lo) as real <= span as real * 1.0;
    }
    q - 0.5
  }

  /** `(Math.random() * n) | 0`: an index into a list of n elements. */
  function PixelIndex(r: real, n: nat): (k: nat)
    requires 0.0 <= r < 1.0 && n >= 1
    ensures k < n
  {
    assert r * n as real < n as real by {
      assert (1.0 - r) * n as real > 0.0;
    }
    (r * n as real).Floor
  }

  /** Depth factor `max(0, 1 - min(1, |nx| * 1.2))`: 1 at the centre line, shrinking outward. */
  function Thickness(nx: real): (c: real)
    ensures 0.0 <= c <= 1.0
    ensures nx == 0.0 ==> c == 1.0
  {
    Max(0.0, 1.0 - Min(1.0, Abs(nx) * 1.2))
  }

  /** The depth factor never grows away from the centre. */
  lemma ThicknessDecreasesOutward(a: real, b: real)
    requires Abs(a) <= Abs(b)
    ensures Thickness(b) <= Thickness(a)
  {
    assert Abs(a) * 1.2 <= Abs(b) * 1.2;
  }

  /** Inside the text box (|nx| <= 0.5) the depth factor is at least 0.4. */
  lemma ThicknessInsideBox(nx: real)
    requires -0.5 <= nx <= 0.5
    ensures 0.4 <= Thickness(nx)
  {
    assert Abs(nx) * 1.2 <= 0.6;
  }

  /** `sx`: the text block is 11 scene units wide for phrases longer than 10, else 12. */
  function WidthScale(text: string): real
  {
    if |text| > 10 then 11.0 else 12.0
  }

  /** The target point made from pixel `p` of the box `b`, with draws `jx`, `jy` for the
      jitter, `rz` for the depth and `jz` for the depth jitter. */
  function TextPoint(p: Pixel, b: Box, sx: real, jx: real, jy: real, rz: real, jz: real): (v: Vec3)
    requires b.minX <= p.x <= b.maxX && b.minY <= p.y <= b.maxY
    requires 0.0 <= jx < 1.0 && 0.0 <= jy < 1.0 && 0.0 <= rz < 1.0 && 0.0 <= jz < 1.0
    requires 0.0 < sx
    ensures var nx := Normalize(p.x, b.minX, Span(b.minX, b.maxX));
            -Jitter <= v.x - nx * sx <= Jitter
    ensures var ny := Normalize(p.y, b.minY, Span(b.minY, b.maxY));
            -Jitter <= v.y + ny * HeightScale <= Jitter
    ensures -(DepthScale + Jitter) <= v.z <= DepthScale + Jitter
  {
    var nx := Normalize(p.x, b.minX, Span(b.minX, b.maxX));
    var ny := Normalize(p.y, b.minY, Span(b.minY, b.maxY));
    var c := Thickness(nx);
    var z := DepthOf(rz, c);
    var dx, dy, dz := Centered(jx, 0.01), Centered(jy, 0.01), Centered(jz, 0.01);
    var px, py := nx * sx, ny * HeightScale;
    assert (px + dx) - px == dx && (-py + dy) + py == dy;
    Vec3(px + dx, -py + dy, z * DepthScale + dz)
  }

  /** `(r * 2 - 1) * (0.25 + 0.75 * c)`, within [-1, 1] for c in [0, 1]. */
  function DepthOf(r: real, c: real): (z: real)
    requires 0.0 <= r < 1.0 && 0.0 <= c <= 1.0
    ensures -1.0 <= z <= 1.0
  {
    UnitProduct(r * 2.0 - 1.0, 0.25 + 0.75 * c);
    (r * 2.0 - 1.0) * (0.25 + 0.75 * c)
  }

  /** The point for slot `i` given the draws from `base` on: pixel index, x jitter,
      y jitter, depth, depth jitter. */
  function Slot(pts: seq<Pixel>, b: Box, sx: real, rnd: Draws, base: nat): (v: Vec3)
    requires |pts| >= 1 && Encloses(b, pts) && 0.0 < sx
  {
    var k := PixelIndex(rnd(base), |pts|);
    TextPoint(pts[k], b, sx, rnd(base + 1), rnd(base + 2), rnd(base + 3), rnd(base + 4))
  }

  /** Every slot comes from a lit pixel of the list and lies within the scaled text block. */
  lemma SlotFromPixel(pts: seq<Pixel>, b: Box, sx: real, rnd: Draws, base: nat)
    requires |pts| >= 1 && Encloses(b, pts) && 0.0 < sx
    ensures var v := Slot(pts, b, sx, rnd, base);
            && (exists k :: 0 <= k < |pts| && v == TextPoint(pts[k], b, sx, rnd(base + 1), rnd(base + 2), rnd(base + 3), rnd(base + 4)))
            && -(sx * 0.5 + Jitter) <= v.x <= sx * 0.5 + Jitter
            && -(HeightScale * 0.5 + Jitter) <= v.y <= HeightScale * 0.5 + Jitter
  {
    var k := PixelIndex(rnd(base), |pts|);
    var p := pts[k];
    var v := TextPoint(p, b, sx, rnd(base + 1), rnd(base + 2), rnd(base + 3), rnd(base + 4));
    var nx := Normalize(p.x, b.minX, Span(b.minX, b.maxX));
    var ny := Normalize(p.y, b.minY, Span(b.minY, b.maxY));
    HalfScaled(nx, sx);
    HalfScaled(ny, HeightScale);
    assert -Jitter <= v.x - nx * sx <= Jitter;
    assert -Jitter <= v.y + ny * HeightScale <= Jitter;
  }

  /** The mapping loop: slot i is made from the five draws at `cursor + 5 * i`. */
  method MapPixels(pts: seq<Pixel>, box: Box, sx: real, count: nat, rnd: Draws, cursor: nat)
    returns (cloud: seq<real>, next: nat)
    requires |pts| >= 1 && Encloses(box, pts) && 0.0 < sx
    ensures |cloud| == 3 * count && next == cursor + TextDraws * count
    ensures forall i :: 0 <= i < count ==> HoldsAt(cloud, i, Slot(pts, box, sx, rnd, cursor + TextDraws * i))
  {
    var out := new real[3 * count];
    next := cursor;
    ghost var slots: seq<Vec3> := [];
    for i := 0 to count
      invariant next == cursor + TextDraws * i
      invariant |slots| == i && HoldsAll(out[..], slots)
      invariant forall j :: 0 <= j < i ==> slots[j] == Slot(pts, box, sx, rnd, cursor + TextDraws * j)
    {
      var v := Slot(pts, box, sx, rnd, next);
      ghost var before := out[..];
      Put(out, i, v);
      HoldsAllExtend(before, out[..], slots, v);
      slots := slots + [v];
      next := next + TextDraws;
    }
    cloud := out[..];
    forall i | 0 <= i < count
      ensures HoldsAt(cloud, i, Slot(pts, box, sx, rnd, cursor + TextDraws * i))
    {
      assert HoldsAt(cloud, i, slots[i]);
    }
  }

  /** Slot `i` of the fallback cloud: x in [-1, 1), y and z in [-0.5, 0.5). */
  predicate FallbackSlot(out: seq<real>, i: nat)
    requires 3 * i + 2 < |out|
  {
    && -1.0 <= out[3 * i] < 1.0
    && -0.5 <= out[3 * i + 1] < 0.5
    && -0.5 <= out[3 * i + 2] < 0.5
  }

  /** The fallback cloud used when the phrase left fewer than 10 lit pixels. */
  method FallbackCloud(count: nat, rnd: Draws, cursor: nat) returns (cloud: seq<real>, next: nat)
    ensures |cloud| == 3 * count && next == cursor + FallbackDraws * count
    ensures forall i :: 0 <= i < count ==> FallbackSlot(cloud, i)
  {
    var out := new real[3 * count];
    next := cursor;
    for i := 0 to count
      invariant next == cursor + FallbackDraws * i
      invariant forall j :: 0 <= j < i ==>
        -1.0 <= out[3 * j] < 1.0 && -0.5 <= out[3 * j + 1] < 0.5 && -0.5 <= out[3 * j + 2] < 0.5
    {
      var ix := i * 3;
      out[ix], out[ix + 1], out[ix + 2] := Centered(rnd(next), 2.0), Centered(rnd(next + 1), 1.0), Centered(rnd(next + 2), 1.0);
      next := next + FallbackDraws;
    }
    cloud := out[..];
  }

  /** The sampling half of `buildTextTargets` on the rasterised canvas `data`. */
  method BuildTextTargets(text: string, count: nat, data: seq<Byte>, rnd: Draws, cursor: nat)
    returns (cloud: seq<real>, next: nat)
    requires IsCanvas(data)
    ensures |cloud| == 3 * count
    ensures |LitPixels(data)| < MinLitPixels ==>
      next == cursor + FallbackDraws * count && forall i :: 0 <= i < count ==> FallbackSlot(cloud, i)
    ensures |LitPixels(data)| >= MinLitPixels ==>
      var pts := LitPixels(data);
      && Encloses(Bounds(pts), pts)
      && next == cursor + TextDraws * count
      && forall i :: 0 <= i < count ==> HoldsAt(cloud, i, Slot(pts, Bounds(pts), WidthScale(text), rnd, cursor + TextDraws * i))
  {
    var pts := ScanLitPixels(data);
    if |pts| < MinLitPixels {
      cloud, next := FallbackCloud(count, rnd, cursor);
      return;
    }
    var box := BoundingBox(pts);
    var sx := WidthScale(text);
    cloud, next := MapPixels(pts, box, sx, count, rnd, cursor);
  }
}
