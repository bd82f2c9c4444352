/**
 * The gesture classifier: continuous signals and discrete gestures computed from
 * one hand's flat landmark array (21 landmarks times x, y, z). A missing hand or
 * an array shorter than 63 values yields no signals and no gesture.
 */
module Gestures {
  import opened Numerics
  import opened Wrappers
  import Landmarks

  const Wrist: nat := 0
  const ThumbTip: nat := 4
  const IndexMcp: nat := 5
  const IndexTip: nat := 8
  const MiddleMcp: nat := 9
  const MiddleTip: nat := 12
  const RingMcp: nat := 13
  const RingTip: nat := 16
  const PinkyMcp: nat := 17
  const PinkyTip: nat := 20

  /** The floor that keeps the hand size away from zero. */
  const MinHandSize: real := 0.000001
  /** How much farther than its MCP joint a fingertip must be from the wrist. */
  const ExtensionThreshold: real := 0.28
  const FingertipFistRadius: real := 0.45
  const ThumbFistRadius: real := 0.55

  /** Enough values for all 21 landmarks. */
  predicate Complete(points: seq<real>)
  {
    |points| >= Landmarks.FlatLength
  }

  /** `v3From`: landmark `idx` read from the flat array. */
  function V3From(points: seq<real>, idx: nat): Vec3
    requires 3 * idx + 2 < |points|
  {
    Vec3(points[3 * idx], points[3 * idx + 1], points[3 * idx + 2])
  }

  /** Reading a landmark back from a flattened hand gives its coordinates, a missing depth as 0. */
  lemma V3FromFlatten(lms: seq<Landmarks.Landmark>, i: nat)
    requires |lms| >= Landmarks.LandmarkCount && i < Landmarks.LandmarkCount
    ensures V3From(Landmarks.Flatten(lms), i) == Vec3(lms[i].x, lms[i].y, Landmarks.Depth(lms[i]))
  {
  }

  /** Euclidean distance, with the square root supplied by the caller. */
  function Dist(sqrt: Root, a: Vec3, b: Vec3): (d: real)
    ensures 0.0 <= d
  {
    var dx, dy, dz := a.x - b.x, a.y - b.y, a.z - b.z;
    sqrt(dx * dx + dy * dy + dz * dz)
  }

  /** Wrist to middle fingertip, never below MinHandSize. */
  function HandSize(sqrt: Root, points: seq<real>): (h: real)
    requires Complete(points)
    ensures MinHandSize <= h && Dist(sqrt, V3From(points, Wrist), V3From(points, MiddleTip)) <= h
    ensures h == MinHandSize || h == Dist(sqrt, V3From(points, Wrist), V3From(points, MiddleTip))
  {
    Max(MinHandSize, Dist(sqrt, V3From(points, Wrist), V3From(points, MiddleTip)))
  }

  datatype HandSignals = HandSignals(handSize: real, pinch: real, spread: real, pointer: Vec3)

  /** `getHandSignals`: hand size, pinch (thumb to index tip) and spread (index and thumb to
      pinky tip), both relative to the hand size, and the index fingertip as pointer. */
  function GetHandSignals(sqrt: Root, points: Option<seq<real>>): (r: Option<HandSignals>)
    ensures r.Some? <==> points.Some? && Complete(points.value)
    ensures r.Some? ==>
      var p, s := points.value, r.value;
      && s.handSize >= MinHandSize
      && s.pinch >= 0.0 && s.spread >= 0.0
      && s.pointer == V3From(p, IndexTip)
  {
    if points.None? || !Complete(points.value) then None
    else
      var p := points.value;
      var wrist, thumb, index := V3From(p, Wrist), V3From(p, ThumbTip), V3From(p, IndexTip);
      var pinky := V3From(p, PinkyTip);
      var handSize := HandSize(sqrt, p);
      var pinch := Ratio(Dist(sqrt, thumb, index), handSize);
      var spread := Ratio(Dist(sqrt, index, pinky) + Dist(sqrt, thumb, pinky), 2.0 * handSize);
      Some(HandSignals(handSize, pinch, spread, index))
  }

  /** `a / h` for a positive h keeps the sign of `a`. */
  function Ratio(a: real, h: real): (r: real)
    requires h > 0.0
    ensures 0.0 <= a ==> 0.0 <= r
    ensures a < 0.0 ==> r < 0.0
  {
    a / h
  }



  /** The extension test on raw distances: `tip / h - mcp / h > 0.28` is `tip - mcp > 0.28 * h`. */
  predicate ExtendedRatio(tipRaw: real, mcpRaw: real, handSize: real)
    requires handSize > 0.0
    ensures ExtendedRatio(tipRaw, mcpRaw, handSize) <==> tipRaw - mcpRaw > ExtensionThreshold * handSize
  {
    DivSub(tipRaw, mcpRaw, handSize);
    QuotientBelow(tipRaw - mcpRaw, handSize, ExtensionThreshold);
    tipRaw / handSize - mcpRaw / handSize > ExtensionThreshold
  }

  /** `isFingerExtended`: the fingertip is more than 0.28 hand sizes farther from the wrist
      than the finger's MCP joint. */
  predicate IsFingerExtended(sqrt: Root, points: seq<real>, tip: nat, mcp: nat)
    requires Complete(points) && tip < 21 && mcp < 21
  {
    var wrist := V3From(points, Wrist);
    ExtendedRatio(Dist(sqrt, wrist, V3From(points, tip)), Dist(sqrt, wrist, V3From(points, mcp)), HandSize(sqrt, points))
  }

  predicate IndexUp(sqrt: Root, points: seq<real>) requires Complete(points)
  {
    IsFingerExtended(sqrt, points, IndexTip, IndexMcp)
  }

  predicate MiddleUp(sqrt: Root, points: seq<real>) requires Complete(points)
  {
    IsFingerExtended(sqrt, points, MiddleTip, MiddleMcp)
  }

  predicate RingUp(sqrt: Root, points: seq<real>) requires Complete(points)
  {
    IsFingerExtended(sqrt, points, RingTip, RingMcp)
  }

  predicate PinkyUp(sqrt: Root, points: seq<real>) requires Complete(points)
  {
    IsFingerExtended(sqrt, points, PinkyTip, PinkyMcp)
  }

  /** `isOneFingerGesture`: index up, middle, ring and pinky down. */
  function IsOneFingerGesture(sqrt: Root, points: Option<seq<real>>): (r: bool)
    ensures r ==> points.Some? && Complete(points.value)
    ensures r ==> IndexUp(sqrt, points.value) && !MiddleUp(sqrt, points.value)
  {
    if points.None? || !Complete(points.value) then false
    else
      var p := points.value;
      IndexUp(sqrt, p) && !MiddleUp(sqrt, p) && !RingUp(sqrt, p) && !PinkyUp(sqrt, p)
  }

  /** `isTwoFingerGesture`: index and middle up, ring and pinky down. */
  function IsTwoFingerGesture(sqrt: Root, points: Option<seq<real>>): (r: bool)
    ensures r ==> points.Some? && Complete(points.value)
    ensures r ==> MiddleUp(sqrt, points.value) && !RingUp(sqrt, points.value)
  {
    if points.None? || !Complete(points.value) then false
    else
      var p := points.value;
      IndexUp(sqrt, p) && MiddleUp(sqrt, p) && !RingUp(sqrt, p) && !PinkyUp(sqrt, p)
  }

  /** `isThreeFingerGesture`: index, middle and ring up, pinky down. */
  function IsThreeFingerGesture(sqrt: Root, points: Option<seq<real>>): (r: bool)
    ensures r ==> points.Some? && Complete(points.value)
    ensures r ==> MiddleUp(sqrt, points.value) && RingUp(sqrt, points.value)
  {
    if points.None? || !Complete(points.value) then false
    else
      var p := points.value;
      IndexUp(sqrt, p) && MiddleUp(sqrt, p) && RingUp(sqrt, p) && !PinkyUp(sqrt, p)
  }

  /** No hand, or fewer than 63 values: none of the finger gestures holds. */
  lemma ShortInputHasNoGesture(sqrt: Root, points: Option<seq<real>>)
    requires points.None? || |points.value| < Landmarks.FlatLength
    ensures !IsOneFingerGesture(sqrt, points) && !IsTwoFingerGesture(sqrt, points)
    ensures !IsThreeFingerGesture(sqrt, points) && !IsFist(sqrt, points)
    ensures GetHandSignals(sqrt, points).None?
  {
  }

  /** The three finger gestures are pairwise exclusive: one needs the middle finger down, two
      needs it up with the ring finger down, three needs both up. */
  lemma FingerGesturesExclusive(sqrt: Root, points: Option<seq<real>>)
    ensures !(IsOneFingerGesture(sqrt, points) && IsTwoFingerGesture(sqrt, points))
    ensures !(IsOneFingerGesture(sqrt, points) && IsThreeFingerGesture(sqrt, points))
    ensures !(IsTwoFingerGesture(sqrt, points) && IsThreeFingerGesture(sqrt, points))
  {
  }

  /** The palm center: the mean of the four MCP joints 5, 9, 13 and 17. */
  function PalmCenter(points: seq<real>): Vec3
    requires Complete(points)
  {
    var a, b, c, d := V3From(points, IndexMcp), V3From(points, MiddleMcp), V3From(points, RingMcp), V3From(points, PinkyMcp);
    Vec3((a.x + b.x + c.x + d.x) / 4.0, (a.y + b.y + c.y + d.y) / 4.0, (a.z + b.z + c.z + d.z) / 4.0)
  }

  /** Landmark `tip` lies within `radius` hand sizes of the palm center. */
  predicate NearPalm(sqrt: Root, points: seq<real>, tip: nat, radius: real)
    requires Complete(points) && tip < 21
  {
    Dist(sqrt, V3From(points, tip), PalmCenter(points)) < radius * HandSize(sqrt, points)
  }

  function Indicator(b: bool): nat
  {
    if b then 1 else 0
  }

  /** How many of the fingertips 8, 12, 16 and 20 lie within 0.45 hand sizes of the palm center. */
  function CurledFingertips(sqrt: Root, points: seq<real>): (n: nat)
    requires Complete(points)
    ensures n <= 4
  {
    Indicator(NearPalm(sqrt, points, IndexTip, FingertipFistRadius))
    + Indicator(NearPalm(sqrt, points, MiddleTip, FingertipFistRadius))
    + Indicator(NearPalm(sqrt, points, RingTip, FingertipFistRadius))
    + Indicator(NearPalm(sqrt, points, PinkyTip, FingertipFistRadius))
  }

  /** A fist: at least three fingertips curled to the palm and the thumb tip tucked within
      0.55 hand sizes of the palm center. */
  predicate IsFist(sqrt: Root, points: Option<seq<real>>)
  {
    && points.Some? && Complete(points.value)
    && CurledFingertips(sqrt, points.value) >= 3
    && NearPalm(sqrt, points.value, ThumbTip, ThumbFistRadius)
  }

  const FingertipIds: seq<nat> := [IndexTip, MiddleTip, RingTip, PinkyTip]
  const McpIds: seq<nat> := [IndexMcp, MiddleMcp, RingMcp, PinkyMcp]

  /** The coordinate sums over a list of landmarks. */
  function SumOf(points: seq<real>, ids: seq<nat>): Vec3
    requires Complete(points) && forall j :: 0 <= j < |ids| ==> ids[j] < 21
  {
    if ids == [] then Origin
    else
      var s, p := SumOf(points, ids[..|ids| - 1]), V3From(points, ids[|ids| - 1]);
      Vec3(s.x + p.x, s.y + p.y, s.z + p.z)
  }

  /** How many of the listed fingertips lie within 0.45 hand sizes of the palm center. */
  function CountNear(sqrt: Root, points: seq<real>, tips: seq<nat>): nat
    requires Complete(points) && forall j :: 0 <= j < |tips| ==> tips[j] < 21
  {
    if tips == [] then 0
    else CountNear(sqrt, points, tips[..|tips| - 1])
         + Indicator(NearPalm(sqrt, points, tips[|tips| - 1], FingertipFistRadius))
  }

  /** Summing over the four MCP joints gives the sums PalmCenter averages. */
  lemma SumOfMcps(p: seq<real>)
    requires Complete(p)
    ensures var s, a, b, c, d := SumOf(p, McpIds), V3From(p, IndexMcp), V3From(p, MiddleMcp), V3From(p, RingMcp), V3From(p, PinkyMcp);
      s == Vec3(a.x + b.x + c.x + d.x, a.y + b.y + c.y + d.y, a.z + b.z + c.z + d.z)
  {
    var a, b, c, d := V3From(p, IndexMcp), V3From(p, MiddleMcp), V3From(p, RingMcp), V3From(p, PinkyMcp);
    var l1, l2, l3 := [IndexMcp], [IndexMcp, MiddleMcp], [IndexMcp, MiddleMcp, RingMcp];
    assert l1[..0] == [] && l2[..1] == l1 && l3[..2] == l2 && McpIds[..3] == l3;
    assert SumOf(p, l1) == Vec3(0.0 + a.x, 0.0 + a.y, 0.0 + a.z);
    assert SumOf(p, l2) == Vec3(a.x + b.x, a.y + b.y, a.z + b.z);
    assert SumOf(p, l3) == Vec3(a.x + b.x + c.x, a.y + b.y + c.y, a.z + b.z + c.z);
  }

  /** Counting over the four fingertips gives CurledFingertips. */
  lemma CountNearFingertips(sqrt: Root, p: seq<real>)
    requires Complete(p)
    ensures CountNear(sqrt, p, FingertipIds) == CurledFingertips(sqrt, p)
  {
    var l1, l2, l3 := [IndexTip], [IndexTip, MiddleTip], [IndexTip, MiddleTip, RingTip];
    assert l1[..0] == [] && l2[..1] == l1 && l3[..2] == l2 && FingertipIds[..3] == l3;
    assert CountNear(sqrt, p, l1) == Indicator(NearPalm(sqrt, p, IndexTip, FingertipFistRadius));
    assert CountNear(sqrt, p, l2) == CountNear(sqrt, p, l1) + Indicator(NearPalm(sqrt, p, MiddleTip, FingertipFistRadius));
    assert CountNear(sqrt, p, l3) == CountNear(sqrt, p, l2) + Indicator(NearPalm(sqrt, p, RingTip, FingertipFistRadius));
  }

  /** `d / h < radius` for a positive h is `d < radius * h`. */
  predicate WithinRatio(d: real, h: real, radius: real)
    requires h > 0.0
    ensures WithinRatio(d, h, radius) <==> d < radius * h
  {
    QuotientBelow(d, h, radius);
    d / h < radius
  }

  /** The first loop of `isFistGesture`: the palm center as the mean of the MCP joints. */
  method PalmCenterOf(p: seq<real>) returns (palm: Vec3)
    requires Complete(p)
    ensures palm == PalmCenter(p)
  {
    var px, py, pz := 0.0, 0.0, 0.0;
    for j := 0 to |McpIds|
      invariant Vec3(px, py, pz) == SumOf(p, McpIds[..j])
    {
      var m := V3From(p, McpIds[j]);
      assert McpIds[..j + 1][..j] == McpIds[..j];
      px, py, pz := px + m.x, py + m.y, pz + m.z;
    }
    assert McpIds[..4] == McpIds;
    SumOfMcps(p);
    palm := Vec3(px / 4.0, py / 4.0, pz / 4.0);
  }

  /** The second loop of `isFistGesture`: how many fingertips lie within 0.45 hand sizes
      of the palm center. */
  method CountCurled(sqrt: Root, p: seq<real>, palm: Vec3, handSize: real) returns (closeCount: nat)
    requires Complete(p) && palm == PalmCenter(p) && handSize == HandSize(sqrt, p)
    ensures closeCount == CurledFingertips(sqrt, p)
  {
    closeCount := 0;
    for j := 0 to |FingertipIds|
      invariant closeCount == CountNear(sqrt, p, FingertipIds[..j])
    {
      var tip := FingertipIds[j];
      assert FingertipIds[..j + 1][..j] == FingertipIds[..j];
      if WithinRatio(Dist(sqrt, V3From(p, tip), palm), handSize, FingertipFistRadius) {
        closeCount := closeCount + 1;
      }
    }
    assert FingertipIds[..4] == FingertipIds;
    CountNearFingertips(sqrt, p);
  }

  /** `isFistGesture`: palm center, curled fingertips, tucked thumb. */
  method FistGesture(sqrt: Root, points: Option<seq<real>>) returns (fist: bool)
    ensures fist == IsFist(sqrt, points)
  {
    if points.None? || !Complete(points.value) {
      return false;
    }
    var p := points.value;
    var handSize := HandSize(sqrt, p);
    var palm := PalmCenterOf(p);
    var closeCount := CountCurled(sqrt, p, palm, handSize);
    var thumbTucked := WithinRatio(Dist(sqrt, V3From(p, ThumbTip), palm), handSize, ThumbFistRadius);
    fist := closeCount >= 3 && thumbTucked;
  }
}
