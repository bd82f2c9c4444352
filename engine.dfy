/**
 * The per-frame engine of the page: the module-level state of the particle swarm, the
 * render tick that steers 15000 particles toward the tracked hand (or back to their idle
 * shape), and the detection step that turns the hand detector's output into the primary
 * hand, the left hand and the gesture flags.
 */
module Engine {
  import opened Numerics
  import opened Wrappers
  import Landmarks
  import Gestures
  import Fireworks
  import HeartCloud
  import TextCloud

  const ParticleCount: nat := 15000
  const BufferLength: nat := 45000
  /** Width of the cube the idle shape is scattered over: `(Math.random() - 0.5) * 12`. */
  const IdleWidth: real := 12.0
  /** Scale and spread the idle swarm eases back to. */
  const RestScale: real := 1.25
  const MaxGroupScale: real := 3.5
  const ScaleRate: real := 0.15
  const CenterRate: real := 0.2
  const MorphRate: real := 0.12
  const TrackRate: real := 0.15
  const SettleRate: real := 0.08
  const HomeRate: real := 0.02
  const MaxFrameSeconds: real := 0.05
  /** A morph weight at or below this leaves its template out of the blend. */
  const MorphCutoff: real := 0.001
  /** Time after the last sighting at which the detection step drops the hands. */
  const HandForgetMs: real := 500.0
  /** Detection runs at most once per 50 ms (about 20 per second). */
  const DetectIntervalMs: real := 50.0

  /** `dt` of a frame: the seconds since the previous frame, at most 0.05. */
  function FrameSeconds(lastMs: real, nowMs: real): (dt: real)
    ensures dt <= MaxFrameSeconds
    ensures nowMs - lastMs <= 50.0 ==> dt == (nowMs - lastMs) / 1000.0
    ensures nowMs - lastMs >= 50.0 ==> dt == MaxFrameSeconds
  {
    Min(MaxFrameSeconds, (nowMs - lastMs) / 1000.0)
  }

  /** The scale a pinch asks for, `1 + 2.5 * clamp01((0.35 - pinch) / 0.25)`: from 1 for an
      open pinch (0.35 or more) up to 3.5 for a closed one (0.1 or less). */
  function PinchScale(pinch: real): (t: real)
    ensures 1.0 <= t <= MaxGroupScale
    ensures pinch >= 0.35 ==> t == 1.0
    ensures pinch <= 0.1 ==> t == MaxGroupScale
  {
    1.0 + Clamp01((0.35 - pinch) / 0.25) * 2.5
  }

  /** A tighter pinch never asks for a smaller swarm. */
  lemma PinchScaleMonotone(a: real, b: real)
    requires a <= b
    ensures PinchScale(b) <= PinchScale(a)
  {
    Clamp01Monotone((0.35 - b) / 0.25, (0.35 - a) / 0.25);
  }

  /** The spread an open hand asks for, `1 + 2.5 * clamp01((spread - 0.35) / 0.35)`: from 1
      for a spread of 0.35 or less up to 3.5 for 0.7 or more. */
  function SpreadScale(spread: real): (t: real)
    ensures 1.0 <= t <= MaxGroupScale
    ensures spread <= 0.35 ==> t == 1.0
    ensures spread >= 0.7 ==> t == MaxGroupScale
  {
    1.0 + Clamp01((spread - 0.35) / 0.35) * 2.5
  }

  /** A wider hand never asks for a smaller spread. */
  lemma SpreadScaleMonotone(a: real, b: real)
    requires a <= b
    ensures SpreadScale(a) <= SpreadScale(b)
  {
    Clamp01Monotone((a - 0.35) / 0.35, (b - 0.35) / 0.35);
  }

  /** Image space (about [0,1] per axis) to scene space: mirrored horizontally, y pointing
      up, 10 scene units across the image and 5 in depth. */
  function ToScene(p: Vec3): (q: Vec3)
    ensures p == Vec3(0.5, 0.5, 0.5) ==> q == Origin
  {
    Vec3((0.5 - p.x) * 10.0, (p.y - 0.5) * -10.0, (0.5 - p.z) * -5.0)
  }

  /** Scene space back to image space. */
  function FromScene(q: Vec3): Vec3
  {
    Vec3(0.5 - q.x / 10.0, 0.5 - q.y / 10.0, 0.5 + q.z / 5.0)
  }

  /** The mapping to the scene loses nothing: it has an inverse on both sides. */
  lemma SceneRoundTrip(p: Vec3, q: Vec3)
    ensures FromScene(ToScene(p)) == p
    ensures ToScene(FromScene(q)) == q
  {
  }

  /** Moving the hand right in the camera image moves the swarm left (the view is mirrored),
      and moving it down the image moves the swarm down. */
  lemma SceneMirrors(p: Vec3, q: Vec3)
    requires p.x < q.x && p.y < q.y
    ensures ToScene(q).x < ToScene(p).x
    ensures ToScene(q).y < ToScene(p).y
  {
  }

  /** `a * (1 - w) + b * w` on each axis. */
  function Blend(a: Vec3, b: Vec3, w: real): (r: Vec3)
    ensures w == 0.0 ==> r == a
    ensures w == 1.0 ==> r == b
  {
    Vec3(a.x * (1.0 - w) + b.x * w, a.y * (1.0 - w) + b.y * w, a.z * (1.0 - w) + b.z * w)
  }

  /** A blend is a smoothing step from `a` toward `b` at rate `w`, so for a weight in [0,1]
      it lies between the two points on every axis. */
  lemma BlendBetween(a: Vec3, b: Vec3, w: real)
    requires 0.0 <= w <= 1.0
    ensures Blend(a, b, w) == SmoothVec(a, b, w)
    ensures Min(a.x, b.x) <= Blend(a, b, w).x <= Max(a.x, b.x)
    ensures Min(a.y, b.y) <= Blend(a, b, w).y <= Max(a.y, b.y)
    ensures Min(a.z, b.z) <= Blend(a, b, w).z <= Max(a.z, b.z)
  {
    SmoothBetween(a.x, b.x, w);
    SmoothBetween(a.y, b.y, w);
    SmoothBetween(a.z, b.z, w);
  }

  function MorphTarget(on: bool): real
  {
    if on then 1.0 else 0.0
  }

  /** The point landmark `joint` of the hand stands for: mapped to the scene, multiplied by
      spread and scale, and placed about the group centre. */
  function HandPoint(hand: seq<real>, joint: nat, center: Vec3, spread: real, scale: real): Vec3
    requires |hand| >= Landmarks.FlatLength && joint < Landmarks.LandmarkCount
  {
    var base := ToScene(Gestures.V3From(hand, joint));
    Vec3(center.x + base.x * spread * scale, center.y + base.y * spread * scale, center.z + base.z * spread * scale)
  }

  /** The smoothed controls of the swarm: its scale and spread, its centre and the two
      morph weights. */
  datatype Swarm = Swarm(scale: real, spread: real, center: Vec3, heartMorph: real, textMorph: real)

  /** Scale and spread within [1, 3.5], morph weights within [0, 1]. */
  predicate InRange(w: Swarm)
  {
    && 1.0 <= w.scale <= MaxGroupScale && 1.0 <= w.spread <= MaxGroupScale
    && 0.0 <= w.heartMorph <= 1.0 && 0.0 <= w.textMorph <= 1.0
  }

  /** The controls at load time. */
  const Resting := Swarm(RestScale, RestScale, Origin, 0.0, 0.0)

  /** The control update of a frame with a hand: scale and spread step at rate 0.15 toward
      what the pinch and the spread ask for, the centre at rate 0.2 toward the index fingertip,
      and both morphs at rate 0.12 toward 1 or 0; the heart morph first drops to 0 when no
      left hand is present. */
  function Steer(w: Swarm, s: Gestures.HandSignals, leftPresent: bool, leftFist: bool, textActive: bool): (r: Swarm)
    ensures InRange(w) ==> InRange(r)
    ensures Min(w.scale, PinchScale(s.pinch)) <= r.scale <= Max(w.scale, PinchScale(s.pinch))
    ensures Min(w.spread, SpreadScale(s.spread)) <= r.spread <= Max(w.spread, SpreadScale(s.spread))
    ensures r.scale - PinchScale(s.pinch) == (1.0 - ScaleRate) * (w.scale - PinchScale(s.pinch))
    ensures r.spread - SpreadScale(s.spread) == (1.0 - ScaleRate) * (w.spread - SpreadScale(s.spread))
    ensures Minus(r.center, ToScene(s.pointer)) == Scaled(Minus(w.center, ToScene(s.pointer)), 1.0 - CenterRate)
    ensures !leftPresent && !leftFist ==> r.heartMorph == 0.0
    ensures r.heartMorph - MorphTarget(leftFist)
      == (1.0 - MorphRate) * ((if leftPresent then w.heartMorph else 0.0) - MorphTarget(leftFist))
    ensures r.textMorph - MorphTarget(textActive) == (1.0 - MorphRate) * (w.textMorph - MorphTarget(textActive))
    ensures w.textMorph <= 1.0 && textActive ==> w.textMorph <= r.textMorph <= 1.0
    ensures 0.0 <= w.textMorph && !textActive ==> 0.0 <= r.textMorph <= w.textMorph
  {
    SmoothBetween(w.scale, PinchScale(s.pinch), ScaleRate);
    SmoothBetween(w.spread, SpreadScale(s.spread), ScaleRate);
    var heart := if leftPresent then w.heartMorph else 0.0;
    Swarm(Smooth(w.scale, PinchScale(s.pinch), ScaleRate), Smooth(w.spread, SpreadScale(s.spread), ScaleRate),
          SmoothVec(w.center, ToScene(s.pointer), CenterRate),
          Smooth(heart, MorphTarget(leftFist), MorphRate), Smooth(w.textMorph, MorphTarget(textActive), MorphRate))
  }

  /** The control update of a frame without a hand: scale and spread ease back to 1.25 and
      the centre to the origin at rate 0.08; both morphs are switched off. */
  function Rest(w: Swarm): (r: Swarm)
    ensures InRange(w) ==> InRange(r)
    ensures r.heartMorph == 0.0 && r.textMorph == 0.0
    ensures r.scale - RestScale == (1.0 - SettleRate) * (w.scale - RestScale)
    ensures r.spread - RestScale == (1.0 - SettleRate) * (w.spread - RestScale)
    ensures r.center == Scaled(w.center, 1.0 - SettleRate)
  {
    Swarm(Smooth(w.scale, RestScale, SettleRate), Smooth(w.spread, RestScale, SettleRate),
          SmoothVec(w.center, Origin, SettleRate), 0.0, 0.0)
  }

  /** `n` handless frames in a row. */
  function Idle(w: Swarm, n: nat): Swarm
  {
    if n == 0 then w else Rest(Idle(w, n - 1))
  }

  /** Over n handless frames the scale follows the n-fold smoothing toward 1.25. */
  lemma {:induction false} IdleScale(w: Swarm, n: nat)
    ensures Idle(w, n).scale == SmoothSteps(w.scale, RestScale, SettleRate, n)
    ensures Idle(w, n).spread == SmoothSteps(w.spread, RestScale, SettleRate, n)
  {
    if n > 0 {
      IdleScale(w, n - 1);
    }
  }

  /** After n handless frames scale and spread are 0.92^n of their distance from 1.25 away
      from it: the swarm settles geometrically to its resting size. */
  lemma IdleSettles(w: Swarm, n: nat)
    ensures Idle(w, n).scale - RestScale == Power(1.0 - SettleRate, n) * (w.scale - RestScale)
    ensures Idle(w, n).spread - RestScale == Power(1.0 - SettleRate, n) * (w.spread - RestScale)
  {
    IdleScale(w, n);
    SmoothStepsContract(w.scale, RestScale, SettleRate, n);
    SmoothStepsContract(w.spread, RestScale, SettleRate, n);
  }

  /** The target of particle `i` in the hand branch: the point of landmark `i mod 21`, blended
      toward slot `i` of the heart cloud and then toward slot `i` of the text cloud (both
      placed about the centre) when their morph weights exceed 0.001. */
  function ParticleTarget(hand: seq<real>, i: nat, w: Swarm, heart: seq<real>, text: seq<real>): Vec3
    requires |hand| >= Landmarks.FlatLength && 3 * i + 2 < |heart| && 3 * i + 2 < |text|
  {
    var t := HandPoint(hand, i % Landmarks.LandmarkCount, w.center, w.spread, w.scale);
    var withHeart := if w.heartMorph > MorphCutoff then Blend(t, Plus(w.center, Gestures.V3From(heart, i)), w.heartMorph) else t;
    if w.textMorph > MorphCutoff then Blend(withHeart, Plus(w.center, Gestures.V3From(text, i)), w.textMorph) else withHeart
  }

  /** With both morphs off, particles i and j follow the same landmark, and so the same
      target, whenever i and j agree modulo 21. */
  lemma SharedJoint(hand: seq<real>, i: nat, j: nat, w: Swarm, heart: seq<real>, text: seq<real>)
    requires |hand| >= Landmarks.FlatLength && 3 * i + 2 < |heart| && 3 * i + 2 < |text|
    requires 3 * j + 2 < |heart| && 3 * j + 2 < |text|
    requires i % Landmarks.LandmarkCount == j % Landmarks.LandmarkCount
    requires w.heartMorph <= MorphCutoff && w.textMorph <= MorphCutoff
    ensures ParticleTarget(hand, i, w, heart, text) == ParticleTarget(hand, j, w, heart, text)
  {
  }

  /** A completed heart morph (and no text) puts particle i on heart slot i about the centre,
      wherever the hand is. */
  lemma FullHeart(hand: seq<real>, i: nat, w: Swarm, heart: seq<real>, text: seq<real>)
    requires |hand| >= Landmarks.FlatLength && 3 * i + 2 < |heart| && 3 * i + 2 < |text|
    requires w.heartMorph == 1.0 && w.textMorph <= MorphCutoff
    ensures ParticleTarget(hand, i, w, heart, text) == Plus(w.center, Gestures.V3From(heart, i))
  {
  }

  /** A completed text morph puts particle i on text slot i about the centre, whatever the
      hand and the heart morph. */
  lemma FullText(hand: seq<real>, i: nat, w: Swarm, heart: seq<real>, text: seq<real>)
    requires |hand| >= Landmarks.FlatLength && 3 * i + 2 < |heart| && 3 * i + 2 < |text|
    requires w.textMorph == 1.0
    ensures ParticleTarget(hand, i, w, heart, text) == Plus(w.center, Gestures.V3From(text, i))
  {
  }

  /** The text cloud the right-hand flags select: three fingers first, then two, else the
      first phrase. */
  function PhraseCloud(three: bool, two: bool, wouldYou: seq<real>, beMy: seq<real>, valentine: seq<real>): seq<real>
  {
    if three then valentine else if two then beMy else wouldYou
  }

  /** At most one of three flags is set. */
  predicate AtMostOne(a: bool, b: bool, c: bool)
  {
    !(a && b) && !(a && c) && !(b && c)
  }

  /** The handedness category the detector reports for a hand. */
  datatype Category = Category(categoryName: Option<string>, displayName: Option<string>)

  /** What a detection attempt produced: no bitmap, a detector error, or per-hand landmark
      lists with their handedness lists (parallel by position). */
  datatype Detection =
    | BitmapFailed
    | DetectFailed
    | Detected(hands: seq<seq<Landmarks.Landmark>>, handedness: seq<seq<Category>>)

  /** ASCII lower-casing. */
  function LowerChar(c: char): char
  {
    if 'A' <= c <= 'Z' then (c as int + 32) as char else c
  }

  function Lower(s: string): (r: string)
    ensures |r| == |s|
  {
    seq(|s|, i requires 0 <= i < |s| => LowerChar(s[i]))
  }

  /** A name that is present and not empty. */
  predicate Named(s: Option<string>)
  {
    s.Some? && s.value != ""
  }

  /** The label of hand `i`: the first category's name, else its display name, else empty,
      lower-cased. */
  function Label(handedness: seq<seq<Category>>, i: nat): string
  {
    if i < |handedness| && |handedness[i]| > 0 then
      var cat := handedness[i][0];
      Lower(if Named(cat.categoryName) then cat.categoryName.value
            else if Named(cat.displayName) then cat.displayName.value
            else "")
    else ""
  }


  /** Hand `i` has exactly 21 landmarks and carries the label `side`. */
  predicate Qualifies(lms: seq<Landmarks.Landmark>, handedness: seq<seq<Category>>, side: string, i: nat)
  {
    |lms| == Landmarks.LandmarkCount && Label(handedness, i) == side
  }

  /** The position of the last hand labelled `side` that has exactly 21 points: every later
      hand fails the test, and there is none exactly when no hand passes it. */
  function LastIndex(hands: seq<seq<Landmarks.Landmark>>, handedness: seq<seq<Category>>, side: string): (r: Option<nat>)
    ensures r.None? ==> forall i :: 0 <= i < |hands| ==> !Qualifies(hands[i], handedness, side, i)
    ensures r.Some? ==>
      && r.value < |hands| && Qualifies(hands[r.value], handedness, side, r.value)
      && forall j :: r.value < j < |hands| ==> !Qualifies(hands[j], handedness, side, j)
  {
    if |hands| == 0 then None
    else
      var n := |hands| - 1;
      if Qualifies(hands[n], handedness, side, n) then Some(n)
      else
        var init := hands[..n];
        assert forall i :: 0 <= i < n ==> init[i] == hands[i];
        LastIndex(init, handedness, side)
  }

  /** The flattened landmarks of that hand; none exactly when no hand qualifies. */
  function LastHand(hands: seq<seq<Landmarks.Landmark>>, handedness: seq<seq<Category>>, side: string): (r: Option<seq<real>>)
    ensures r.Some? ==> |r.value| == Landmarks.FlatLength
    ensures r.None? <==> forall i :: 0 <= i < |hands| ==> !Qualifies(hands[i], handedness, side, i)
  {
    match LastIndex(hands, handedness, side)
    case None => None
    case Some(i) => Some(Landmarks.Flatten(hands[i]))
  }

  /** The hand loop of the detection step: every hand with 21 points is flattened; one
      labelled "left" becomes the left hand, one labelled "right" the right hand, the last
      one winning. */
  method SelectHands(hands: seq<seq<Landmarks.Landmark>>, handedness: seq<seq<Category>>)
    returns (right: Option<seq<real>>, left: Option<seq<real>>)
    ensures right == LastHand(hands, handedness, "right")
    ensures left == LastHand(hands, handedness, "left")
  {
    right, left := None, None;
    for i := 0 to |hands|
      invariant right == LastHand(hands[..i], handedness, "right")
      invariant left == LastHand(hands[..i], handedness, "left")
    {
      assert hands[..i + 1][..i] == hands[..i];
      var lms := hands[i];
      if |lms| != Landmarks.LandmarkCount {
        continue;
      }
      var side := Label(handedness, i);
      var flat := Landmarks.FlattenLandmarks(lms);
      if side == "left" {
        left := Some(flat[..]);
      } else if side == "right" {
        right := Some(flat[..]);
      }
    }
    assert hands[..|hands|] == hands;
  }

  /** The gesture flags the detection step sets and the render step reads. */
  datatype Flags = Flags(leftFist: bool, rightOneFinger: bool, rightTwoFingers: bool, rightThreeFingers: bool,
                         rightFist: bool, prevRightFist: bool)

  const Cleared := Flags(false, false, false, false, false, false)

  function TextActive(f: Flags): bool
  {
    f.rightOneFinger || f.rightTwoFingers || f.rightThreeFingers
  }

  /** At most one finger gesture, and the previous-fist flag equal to the fist flag. */
  predicate Coherent(f: Flags)
  {
    AtMostOne(f.rightOneFinger, f.rightTwoFingers, f.rightThreeFingers) && f.prevRightFist == f.rightFist
  }

  /** The flags a detection leaves behind for the right hand `right` and the left hand `left`.
      Three fingers take priority over two and two over one, but as the three gestures exclude
      each other, each flag is exactly its own gesture. */
  function Classify(sqrt: Root, right: Option<seq<real>>, left: Option<seq<real>>): (f: Flags)
    ensures Coherent(f)
    ensures f.rightFist == Gestures.IsFist(sqrt, right) && f.leftFist == Gestures.IsFist(sqrt, left)
    ensures f.rightThreeFingers == Gestures.IsThreeFingerGesture(sqrt, right)
    ensures f.rightTwoFingers == Gestures.IsTwoFingerGesture(sqrt, right)
    ensures f.rightOneFinger == Gestures.IsOneFingerGesture(sqrt, right)
  {
    var leftFist := left.Some? && |left.value| >= Landmarks.FlatLength && Gestures.IsFist(sqrt, left);
    if right.Some? && |right.value| >= Landmarks.FlatLength then
      Gestures.FingerGesturesExclusive(sqrt, right);
      var fist := Gestures.IsFist(sqrt, right);
      var three := Gestures.IsThreeFingerGesture(sqrt, right);
      var two := !three && Gestures.IsTwoFingerGesture(sqrt, right);
      var one := !three && !two && Gestures.IsOneFingerGesture(sqrt, right);
      Flags(leftFist, one, two, three, fist, fist)
    else
      Gestures.ShortInputHasNoGesture(sqrt, right);
      Flags(leftFist, false, false, false, false, false)
  }

  /** The morphs a detection leaves: the text morph drops to 0 without a right hand, the
      heart morph without a left hand. */
  function Gate(w: Swarm, rightPresent: bool, leftPresent: bool): (r: Swarm)
    ensures InRange(w) ==> InRange(r)
    ensures r.scale == w.scale && r.spread == w.spread && r.center == w.center
  {
    var t := if rightPresent then w else w.(textMorph := 0.0);
    if leftPresent then t else t.(heartMorph := 0.0)
  }

  /** The right-hand half of the detection step: with a right hand its fist and finger
      gestures are read (three fingers before two before one); without one the right-hand
      flags are cleared and the text morph drops to 0. */
  method RightGestures(sqrt: Root, right: Option<seq<real>>, f: Flags, w: Swarm) returns (g: Flags, v: Swarm)
    requires right.Some? ==> |right.value| == Landmarks.FlatLength
    ensures g == f.(rightFist := Gestures.IsFist(sqrt, right), prevRightFist := Gestures.IsFist(sqrt, right),
                    rightThreeFingers := Gestures.IsThreeFingerGesture(sqrt, right),
                    rightTwoFingers := Gestures.IsTwoFingerGesture(sqrt, right),
                    rightOneFinger := Gestures.IsOneFingerGesture(sqrt, right))
    ensures v == if right.Some? then w else w.(textMorph := 0.0)
  {
    g, v := f, w;
    if right.Some? && |right.value| >= Landmarks.FlatLength {
      Gestures.FingerGesturesExclusive(sqrt, right);
      var fist := Gestures.FistGesture(sqrt, right);
      var three := Gestures.IsThreeFingerGesture(sqrt, right);
      var two := !three && Gestures.IsTwoFingerGesture(sqrt, right);
      var one := !three && !two && Gestures.IsOneFingerGesture(sqrt, right);
      g := g.(rightFist := fist, rightThreeFingers := three, rightTwoFingers := two, rightOneFinger := one,
              prevRightFist := fist);
    } else {
      Gestures.ShortInputHasNoGesture(sqrt, right);
      g := g.(rightFist := false, prevRightFist := false,
              rightThreeFingers := false, rightTwoFingers := false, rightOneFinger := false);
      v := v.(textMorph := 0.0);
    }
  }

  /** The left-hand half of the detection step: the left fist is read from the left hand,
      and without a left hand the heart morph drops to 0. */
  method LeftGesture(sqrt: Root, left: Option<seq<real>>, f: Flags, w: Swarm) returns (g: Flags, v: Swarm)
    requires left.Some? ==> |left.value| == Landmarks.FlatLength
    ensures g == f.(leftFist := Gestures.IsFist(sqrt, left))
    ensures v == if left.Some? then w else w.(heartMorph := 0.0)
  {
    g, v := f, w;
    if left.Some? && |left.value| >= Landmarks.FlatLength {
      var leftFist := Gestures.FistGesture(sqrt, left);
      g := g.(leftFist := leftFist);
    } else {
      g := g.(leftFist := false);
    }
    if left.None? {
      g := g.(leftFist := false);
      v := v.(heartMorph := 0.0);
    }
  }

  /** The hand part of the detection step on values: the primary hand is the right one,
      else the left one; the gesture flags and morphs follow both hands, and the time a hand
      was last seen moves to `now` when there is one. Past 500 ms without a hand both hands
      are dropped again, which leaves them as they are. */
  method ReadHands(sqrt: Root, now: real, right: Option<seq<real>>, left: Option<seq<real>>,
                   f: Flags, w: Swarm, lastSeen: real)
    returns (primary: Option<seq<real>>, secondary: Option<seq<real>>, g: Flags, v: Swarm, seen: real)
    requires right.Some? ==> |right.value| == Landmarks.FlatLength
    requires left.Some? ==> |left.value| == Landmarks.FlatLength
    ensures primary == right.OrElse(left) && secondary == left
    ensures g == Classify(sqrt, right, left) && v == Gate(w, right.Some?, left.Some?)
    ensures seen == if right.Some? || left.Some? then now else lastSeen
    ensures Coherent(g) && (InRange(w) ==> InRange(v))
    ensures secondary.Some? ==> primary.Some? && |secondary.value| == Landmarks.FlatLength
    ensures primary.Some? ==> |primary.value| == Landmarks.FlatLength
    ensures secondary.None? ==> !g.leftFist
  {
    primary, secondary, seen := right.OrElse(left), left, lastSeen;
    g, v := RightGestures(sqrt, right, f, w);

    if primary.Some? {
      seen := now;
    } else if now - seen > HandForgetMs {
      primary, secondary := None, None;
    }

    g, v := LeftGesture(sqrt, secondary, g, v);
    assert g == Classify(sqrt, right, left);
  }

  /** The idle shape: entry k is `(Math.random() - 0.5) * 12` from draw `cursor + k`, so every
      particle starts inside the cube of side 12 about the origin. */
  function IdleShape(rnd: Draws, cursor: nat): (s: seq<real>)
    ensures |s| == BufferLength
    ensures forall k :: 0 <= k < BufferLength ==> -IdleWidth / 2.0 <= s[k] < IdleWidth / 2.0
  {
    var s := seq(BufferLength, k requires 0 <= k < BufferLength => Centered(rnd(cursor + k), IdleWidth));
    assert forall k :: 0 <= k < BufferLength ==> s[k] == Centered(rnd(cursor + k), IdleWidth);
    s
  }

  /** The scatter loop of `initStage`. */
  method Scatter(rnd: Draws, cursor: nat) returns (a: array<real>)
    ensures fresh(a) && a[..] == IdleShape(rnd, cursor)
  {
    a := new real[BufferLength];
    for k := 0 to BufferLength
      invariant forall j :: 0 <= j < k ==> a[j] == Centered(rnd(cursor + j), IdleWidth)
    {
      a[k] := Centered(rnd(cursor + k), IdleWidth);
    }
  }

  /** Particle `i` of a flat buffer takes one smoothing step toward `target`; the other
      particles keep their coordinates. */
  method MoveToward(buf: array<real>, i: nat, target: Vec3, alpha: real)
    requires 3 * i + 2 < buf.Length
    modifies buf
    ensures Gestures.V3From(buf[..], i) == SmoothVec(Gestures.V3From(old(buf[..]), i), target, alpha)
    ensures forall j :: 0 <= j && 3 * j + 2 < buf.Length && j != i ==>
      Gestures.V3From(buf[..], j) == Gestures.V3From(old(buf[..]), j)
  {
    var ix := i * 3;
    buf[ix] := buf[ix] + (target.x - buf[ix]) * alpha;
    buf[ix + 1] := buf[ix + 1] + (target.y - buf[ix + 1]) * alpha;
    buf[ix + 2] := buf[ix + 2] + (target.z - buf[ix + 2]) * alpha;
  }

  /** Every particle of `after` is one step at rate 0.15 from `before` toward its hand-branch
      target. */
  predicate Tracks(before: seq<real>, after: seq<real>, hand: seq<real>, w: Swarm, heart: seq<real>, text: seq<real>)
    requires |before| == |after| == |heart| == |text| == BufferLength && |hand| >= Landmarks.FlatLength
  {
    forall i :: 0 <= i < ParticleCount ==>
      Gestures.V3From(after, i) == SmoothVec(Gestures.V3From(before, i), ParticleTarget(hand, i, w, heart, text), TrackRate)
  }

  /** Every particle of `after` is one step at rate 0.02 from `before` toward its place in
      the idle shape `home`. */
  predicate Homes(before: seq<real>, after: seq<real>, home: seq<real>)
    requires |before| == |after| == |home| == BufferLength
  {
    forall i :: 0 <= i < ParticleCount ==>
      Gestures.V3From(after, i) == SmoothVec(Gestures.V3From(before, i), Gestures.V3From(home, i), HomeRate)
  }

  /** The frame that ends `initStage` leaves the load-time state as it is: the resting
      controls rest where they are, and particles on their home shape stay there. */
  lemma FirstFrameAtRest(home: seq<real>, after: seq<real>)
    requires |home| == |after| == BufferLength && Homes(home, after, home)
    ensures Rest(Resting) == Resting
    ensures after == home
  {
    forall k | 0 <= k < BufferLength ensures after[k] == home[k] {
      var i := k / 3;
      assert Gestures.V3From(after, i) == SmoothVec(Gestures.V3From(home, i), Gestures.V3From(home, i), HomeRate);
      assert k == 3 * i || k == 3 * i + 1 || k == 3 * i + 2;
    }
  }

  /** The particle loop of the hand branch. */
  method Track(buf: array<real>, hand: seq<real>, w: Swarm, heart: seq<real>, text: seq<real>)
    requires buf.Length == |heart| == |text| == BufferLength && |hand| >= Landmarks.FlatLength
    modifies buf
    ensures Tracks(old(buf[..]), buf[..], hand, w, heart, text)
  {
    ghost var p0 := buf[..];
    for i := 0 to ParticleCount
      invariant forall j :: 0 <= j < i ==>
        Gestures.V3From(buf[..], j) == SmoothVec(Gestures.V3From(p0, j), ParticleTarget(hand, j, w, heart, text), TrackRate)
      invariant forall j :: i <= j < ParticleCount ==> Gestures.V3From(buf[..], j) == Gestures.V3From(p0, j)
    {
      MoveToward(buf, i, ParticleTarget(hand, i, w, heart, text), TrackRate);
    }
  }

  /** The particle loop of the idle branch. */
  method ReturnHome(buf: array<real>, home: seq<real>)
    requires buf.Length == |home| == BufferLength
    modifies buf
    ensures Homes(old(buf[..]), buf[..], home)
  {
    ghost var p0 := buf[..];
    for i := 0 to ParticleCount
      invariant forall j :: 0 <= j < i ==>
        Gestures.V3From(buf[..], j) == SmoothVec(Gestures.V3From(p0, j), Gestures.V3From(home, j), HomeRate)
      invariant forall j :: i <= j < ParticleCount ==> Gestures.V3From(buf[..], j) == Gestures.V3From(p0, j)
    {
      MoveToward(buf, i, Gestures.V3From(home, i), HomeRate);
    }
  }

  /** The scalar part of the page state. */
  datatype Snapshot = Snapshot(
    handPoints: Option<seq<real>>, leftHandPoints: Option<seq<real>>, flags: Flags, swarm: Swarm,
    lastRenderMs: real, lastTs: real, lastHandSeenMs: real, lastDetectMs: real)

  /** The module-level state of the page once `initStage` has run. */
  class Stage {
    /** The primary hand (right, else left) as 63 values, or none. */
    var handPoints: Option<seq<real>>
    var leftHandPoints: Option<seq<real>>
    var flags: Flags
    var swarm: Swarm
    var lastRenderMs: real
    /** The last timestamp handed to the detector. */
    var lastTs: real
    var lastHandSeenMs: real
    /** When the detection loop last got past its throttle. */
    var lastDetectMs: real
    /** The particle positions, three entries per particle, moved in place every frame. */
    const positions: array<real>
    const idleTargets: seq<real>
    const heartTargets: seq<real>
    const textTargets: seq<real>
    const textTargetsBeMy: seq<real>
    const textTargetsValentine: seq<real>
    const fireworks: Fireworks.FireworkSystem

    ghost predicate Valid()
      reads this, fireworks
    {
      && positions.Length == BufferLength && |idleTargets| == BufferLength && |heartTargets| == BufferLength
      && |textTargets| == BufferLength && |textTargetsBeMy| == BufferLength && |textTargetsValentine| == BufferLength
      && fireworks.Valid()
      && (forall b :: b in fireworks.bursts ==> b.pos != positions && b.vel != positions)
      && (handPoints.Some? ==> |handPoints.value| == Landmarks.FlatLength)
      && (leftHandPoints.Some? ==> |leftHandPoints.value| == Landmarks.FlatLength && handPoints.Some?)
      && (leftHandPoints.None? ==> !flags.leftFist)
      && Coherent(flags) && InRange(swarm)
    }

    ghost function Snap(): Snapshot
      reads this
    {
      Snapshot(handPoints, leftHandPoints, flags, swarm, lastRenderMs, lastTs, lastHandSeenMs, lastDetectMs)
    }

    /** The text cloud the right-hand flags select. */
    function ActiveText(f: Flags): seq<real>
    {
      PhraseCloud(f.rightThreeFingers, f.rightTwoFingers, textTargets, textTargetsBeMy, textTargetsValentine)
    }

    /** Module load and `initStage`: the idle shape scattered from draws 0 .. 44999 and kept as
        the home shape; then the heart cloud and the three text clouds built, in that order,
        from the following draws and the rasterised phrases. `firstRenderMs` is the clock
        at the `render()` call that ends `initStage`: that frame records it as the last
        render time and, with no bursts, no hand and the swarm at rest on its home shape,
        changes nothing else. */
    constructor (firstRenderMs: real, rnd: Draws, quarter: UnitMap,
                 wouldYou: seq<TextCloud.Byte>, beMy: seq<TextCloud.Byte>, valentine: seq<TextCloud.Byte>)
      requires TextCloud.IsCanvas(wouldYou) && TextCloud.IsCanvas(beMy) && TextCloud.IsCanvas(valentine)
      ensures Valid() && fresh(positions) && fresh(fireworks)
      ensures idleTargets == IdleShape(rnd, 0) && positions[..] == idleTargets
      ensures Snap() == Snapshot(None, None, Cleared, Resting, firstRenderMs, 0.0, 0.0, 0.0)
      ensures fireworks.bursts == [] && fireworks.lastFireworkMs == 0.0
    {
      var home := Scatter(rnd, 0);
      var heart, next, filled, attempts;
      ghost var samples;
      heart, next, filled, attempts, samples := HeartCloud.BuildHeartTargets(ParticleCount, rnd, quarter, BufferLength);
      var first, second, third;
      first, next := TextCloud.BuildTextTargets("Would you", ParticleCount, wouldYou, rnd, next);
      second, next := TextCloud.BuildTextTargets("Would you\nbe my", ParticleCount, beMy, rnd, next);
      third, next := TextCloud.BuildTextTargets("Would you\nbe my\nValentine?", ParticleCount, valentine, rnd, next);
      var system := new Fireworks.FireworkSystem();
      positions := home;
      idleTargets := home[..];
      heartTargets := heart;
      textTargets := first;
      textTargetsBeMy := second;
      textTargetsValentine := third;
      fireworks := system;
      handPoints, leftHandPoints := None, None;
      flags, swarm := Cleared, Resting;
      lastRenderMs, lastTs, lastHandSeenMs, lastDetectMs := firstRenderMs, 0.0, 0.0, 0.0;
    }

    /** One `render()` frame at time `now`. The fireworks advance by the frame's `dt`; with a
        primary hand the controls are steered by its signals and every particle steps toward
        its target; without one the flags are cleared and everything eases back to the idle
        shape. */
    method Render(sqrt: Root, now: real)
      requires Valid()
      modifies this, positions, fireworks, Fireworks.Footprint(fireworks.bursts)
      ensures Valid()
      ensures lastRenderMs == now
      ensures handPoints == old(handPoints) && leftHandPoints == old(leftHandPoints)
      ensures lastTs == old(lastTs) && lastHandSeenMs == old(lastHandSeenMs) && lastDetectMs == old(lastDetectMs)
      ensures fireworks.bursts == Fireworks.Survivors(old(fireworks.bursts), now)
      ensures fireworks.lastFireworkMs == old(fireworks.lastFireworkMs)
      ensures forall b :: b in old(fireworks.bursts) ==>
        b.Stepped(old(b.pos[..]), old(b.vel[..]), FrameSeconds(old(lastRenderMs), now), now)
      ensures old(handPoints).Some? ==>
        && flags == old(flags)
        && swarm == Steer(old(swarm), Gestures.GetHandSignals(sqrt, old(handPoints)).value,
                          old(leftHandPoints).Some?, old(flags).leftFist, TextActive(old(flags)))
        && Tracks(old(positions[..]), positions[..], old(handPoints).value, swarm, heartTargets, ActiveText(flags))
      ensures old(handPoints).None? ==>
        flags == Cleared && swarm == Rest(old(swarm)) && Homes(old(positions[..]), positions[..], idleTargets)
    {
      AdvanceFireworks(now);
      if handPoints.Some? && |handPoints.value| >= Landmarks.FlatLength {
        FollowHand(sqrt);
      } else {
        Settle();
      }
    }

    /** The start of a frame: `dt` from the time since the previous frame, and the fireworks
        advanced by it. */
    method AdvanceFireworks(now: real)
      requires Valid()
      modifies this, fireworks, Fireworks.Footprint(fireworks.bursts)
      ensures Valid() && Snap() == old(Snap()).(lastRenderMs := now)
      ensures positions[..] == old(positions[..])
      ensures fireworks.bursts == Fireworks.Survivors(old(fireworks.bursts), now)
      ensures fireworks.lastFireworkMs == old(fireworks.lastFireworkMs)
      ensures forall b :: b in old(fireworks.bursts) ==>
        b.Stepped(old(b.pos[..]), old(b.vel[..]), FrameSeconds(old(lastRenderMs), now), now)
    {
      var dt := FrameSeconds(lastRenderMs, now);
      lastRenderMs := now;
      ghost var snap := Snap();
      ghost var before := fireworks.bursts;
      assert positions !in Fireworks.Footprint(before);
      fireworks.Update(dt, now);
      assert Snap() == snap;
      assert positions[..] == old(positions[..]);
      Fireworks.SurvivorsExactly(before, now);
      assert forall b :: b in fireworks.bursts ==> b.pos != positions && b.vel != positions by {
        forall b | b in fireworks.bursts ensures b.pos != positions && b.vel != positions {
          assert b in before;
        }
      }
    }

    /** The hand branch of a frame. */
    method FollowHand(sqrt: Root)
      requires Valid() && handPoints.Some?
      modifies this, positions
      ensures Valid()
      ensures Snap() == old(Snap()).(swarm := swarm)
      ensures swarm == Steer(old(swarm), Gestures.GetHandSignals(sqrt, handPoints).value,
                             leftHandPoints.Some?, flags.leftFist, TextActive(flags))
      ensures Tracks(old(positions[..]), positions[..], handPoints.value, swarm, heartTargets, ActiveText(flags))
    {
      var s := Gestures.GetHandSignals(sqrt, handPoints).value;
      swarm := Steer(swarm, s, leftHandPoints.Some?, flags.leftFist, TextActive(flags));
      Track(positions, handPoints.value, swarm, heartTargets, ActiveText(flags));
    }

    /** The idle branch of a frame. */
    method Settle()
      requires Valid()
      modifies this, positions
      ensures Valid()
      ensures Snap() == old(Snap()).(flags := Cleared, swarm := Rest(old(swarm)))
      ensures Homes(old(positions[..]), positions[..], idleTargets)
    {
      flags := Cleared;
      swarm := Rest(swarm);
      ReturnHome(positions, idleTargets);
    }

    /** One pass of the detection loop at time `now`: nothing within 50 ms of the last pass
        that got through; otherwise the pass is recorded and, once the video has data
        (`ready`), the detection step runs. */
    method Poll(sqrt: Root, now: real, ready: bool, frame: Detection, rnd: Draws, dir: Direction, cursor: nat)
      returns (next: nat)
      requires Valid()
      modifies this, fireworks
      ensures Valid()
      ensures now - old(lastDetectMs) < DetectIntervalMs || !ready ==>
        next == cursor && fireworks.bursts == old(fireworks.bursts) && fireworks.lastFireworkMs == old(fireworks.lastFireworkMs)
      ensures now - old(lastDetectMs) < DetectIntervalMs ==> Snap() == old(Snap())
      ensures now - old(lastDetectMs) >= DetectIntervalMs ==> lastDetectMs == now
      ensures now - old(lastDetectMs) >= DetectIntervalMs && !ready ==> Snap() == old(Snap()).(lastDetectMs := now)
    {
      next := cursor;
      if now - lastDetectMs < DetectIntervalMs {
        return;
      }
      lastDetectMs := now;
      if !ready {
        return;
      }
      next := DetectStep(sqrt, now, frame, rnd, dir, cursor);
    }

    /** The detection step at time `now` on the outcome `frame` of one detection attempt;
        `rnd`, `dir` and `cursor` feed the firework a right fist may launch. */
    method DetectStep(sqrt: Root, now: real, frame: Detection, rnd: Draws, dir: Direction, cursor: nat)
      returns (next: nat)
      requires Valid()
      modifies this, fireworks
      ensures Valid()
      ensures lastRenderMs == old(lastRenderMs) && lastDetectMs == old(lastDetectMs)
      ensures frame.BitmapFailed? ==> Snap() == old(Snap())
      ensures frame.DetectFailed? ==> Snap() == old(Snap()).(lastTs := NextTimestamp(old(lastTs), now))
      ensures !frame.Detected? ==>
        next == cursor && fireworks.bursts == old(fireworks.bursts) && fireworks.lastFireworkMs == old(fireworks.lastFireworkMs)
      ensures frame.Detected? ==>
        var right := LastHand(frame.hands, frame.handedness, "right");
        var left := LastHand(frame.hands, frame.handedness, "left");
        && lastTs == NextTimestamp(old(lastTs), now)
        && handPoints == right.OrElse(left) && leftHandPoints == left
        && flags == Classify(sqrt, right, left)
        && swarm == Gate(old(swarm), right.Some?, left.Some?)
        && lastHandSeenMs == (if handPoints.Some? then now else old(lastHandSeenMs))
      ensures frame.Detected? ==>
        var right := LastHand(frame.hands, frame.handedness, "right");
        var launch := Gestures.IsFist(sqrt, right) && now - old(fireworks.lastFireworkMs) >= Fireworks.CooldownMs;
        && (!launch ==>
              fireworks.bursts == old(fireworks.bursts) && fireworks.lastFireworkMs == old(fireworks.lastFireworkMs)
              && next == cursor)
        && (launch ==>
              && fireworks.lastFireworkMs == now
              && |fireworks.bursts| == |old(fireworks.bursts)| + 1
              && fireworks.bursts[..|old(fireworks.bursts)|] == old(fireworks.bursts)
              && var b := fireworks.bursts[|old(fireworks.bursts)|];
                 b.Valid() && b.Launched(ToScene(Gestures.V3From(right.value, Gestures.IndexTip)), now, rnd, dir, cursor))
    {
      next := cursor;
      if frame.BitmapFailed? {
        return;
      }
      lastTs := NextTimestamp(lastTs, now);
      if frame.DetectFailed? {
        return;
      }
      var right, left := SelectHands(frame.hands, frame.handedness);
      var primary, secondary, f, w, seen := ReadHands(sqrt, now, right, left, flags, swarm, lastHandSeenMs);
      Store(primary, secondary, f, w, seen);
      if flags.rightFist {
        next := Launch(sqrt, now, right, rnd, dir, cursor);
      }
    }

    /** A right fist launches a firework from the index fingertip (or, without hand signals,
        from the group centre), subject to the 700 ms cooldown. */
    method Launch(sqrt: Root, now: real, right: Option<seq<real>>, rnd: Draws, dir: Direction, cursor: nat)
      returns (next: nat)
      requires Valid() && right.Some? && |right.value| == Landmarks.FlatLength
      modifies fireworks
      ensures Valid()
      ensures now - old(fireworks.lastFireworkMs) < Fireworks.CooldownMs ==>
        fireworks.bursts == old(fireworks.bursts) && fireworks.lastFireworkMs == old(fireworks.lastFireworkMs)
        && next == cursor
      ensures now - old(fireworks.lastFireworkMs) >= Fireworks.CooldownMs ==>
        && fireworks.lastFireworkMs == now
        && |fireworks.bursts| == |old(fireworks.bursts)| + 1
        && fireworks.bursts[..|old(fireworks.bursts)|] == old(fireworks.bursts)
        && var b := fireworks.bursts[|old(fireworks.bursts)|];
           b.Valid() && b.Launched(ToScene(Gestures.V3From(right.value, Gestures.IndexTip)), now, rnd, dir, cursor)
    {
      var sRight := Gestures.GetHandSignals(sqrt, right);
      var origin := if sRight.Some? then ToScene(sRight.value.pointer) else swarm.center;
      next := fireworks.Spawn(origin, now, rnd, dir, cursor);
    }

    /** Stores what the detection step read from the hands. */
    method Store(primary: Option<seq<real>>, secondary: Option<seq<real>>, f: Flags, w: Swarm, seen: real)
      requires Valid() && Coherent(f) && InRange(w)
      requires secondary.Some? ==> primary.Some? && |secondary.value| == Landmarks.FlatLength
      requires primary.Some? ==> |primary.value| == Landmarks.FlatLength
      requires secondary.None? ==> !f.leftFist
      modifies this
      ensures Valid()
      ensures Snap() == old(Snap()).(handPoints := primary, leftHandPoints := secondary, flags := f, swarm := w,
                                     lastHandSeenMs := seen)
    {
      handPoints, leftHandPoints, flags, swarm, lastHandSeenMs := primary, secondary, f, w, seen;
    }
  }
}
