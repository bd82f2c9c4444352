# Interactive gesture particles — a Dafny model

The page shows a swarm of 15000 particles that follows the hand seen by the webcam. A
hand landmark detector delivers up to two hands of 21 landmarks each. From the hand's
flattened landmarks (63 numbers) the page derives continuous signals and discrete
gestures:

- pinch and spread set the swarm's scale and spread;
- the index fingertip moves the swarm's centre;
- a left-hand fist morphs the swarm into a 3D heart;
- one, two or three raised right-hand fingers morph it into the particle text "Would
  you", "Would you / be my" or "Would you / be my / Valentine?";
- a right-hand fist launches firework bursts of 2400 sparks, at most one every 700 ms.

With no hand in view, the swarm eases back to its idle shape. A worker variant runs the
detector off the main thread and posts the flattened first hand back.

The model is split into modules:

- `Numerics` holds clamping, first-order smoothing, 3D vectors and the detector
  timestamp.
- `Landmarks` holds the 63-value flat layout and the `flattenLandmarks` loop.
- `Gestures` holds `getHandSignals`, the finger-extension test, the one/two/three-finger
  gestures and the fist test.
- `HeartCloud` holds the rejection-sampled heart template.
- `TextLayout` and `TextCloud` are the two halves of `buildTextTargets`: font fitting and
  line layout, then lit-pixel scanning, the bounding box and the mapping into scene units.
- `Fireworks` holds bursts (class `Burst`, with position and velocity arrays updated in
  place) and the burst list (class `FireworkSystem`) with spawning, cooldown, physics and
  expiry.
- `Engine` holds the module-level state of the page as class `Stage`:
  - `Render` is the per-frame tick.
  - `Poll` and `DetectStep` are the detection loop.
  - The pure functions they are specified by are `Steer`, `Rest`, `Classify`, `Gate`,
    `LastHand` and `ParticleTarget`.
- `HandWorker` holds the worker's message handler as class `Worker`.

Each mutable entity of the source becomes a class:

- the particle position buffer and the firework buffers are arrays updated in place;
- the page's hand state, flags and swarm parameters are fields of `Stage`, grouped into
  the value types `Flags` and `Swarm`.

Three inputs are never computed inside the model:

- `Math.random` is a stream of draws `rnd: nat -> real` with values in [0, 1). A cursor
  is threaded through every generator in the source's draw order.
- `Math.sqrt`, `Math.pow(x, 0.25)` and the trigonometry of the spark directions are
  supplied functions. Only their ranges are known about them.
- The clock (`performance.now()`) is a parameter.

A few modelling notes:

- **Layout of multi-line phrases.** Three lines never fit the 70% height bound at 90 px
  or more (`TextLayout.AtMostTwoLinesFit`). So "Would you / be my / Valentine?" is always
  laid out at 86 px, the first size below 90 px on the ladder from 170 px
  (`TextLayout.FitText`).
- **The 500 ms branch of the detection step** (`src/main.js:804-811`) clears
  `handPoints`, which at that point is already empty. So the hands are dropped at once
  rather than kept for 500 ms. The model keeps this behaviour as written
  (`Engine.Stage.DetectStep`).
- **Firework order in the detection step.** The step launches the firework before it
  stores the left-hand flag. The two touch disjoint state, so the model stores all of the
  detection's results first and then launches.
- **Float32Array buffers** hold reals in the model, and arithmetic is exact.

## Model

| member | source | states |
|---|---|---|
| Numerics.Clamp01 | src/main.js:469-471 | the result lies in [0,1]; it equals x inside [0,1], 0 below and 1 above |
| Numerics.Clamp01Monotone | src/main.js:469-471 | clamping preserves order |
| Numerics.SmoothContracts | src/main.js:568 | one smoothing step multiplies the distance to the target by 1 - alpha |
| Numerics.Smooth | src/main.js:568 | definition of one smoothing step `v + (target - v)·alpha`; its properties are the Smooth lemmas |
| Numerics.SmoothBetween | src/main.js:566-573 | for a rate in [0,1] the smoothed value lies between the old value and the target (no overshoot) |
| Numerics.SmoothStaysIn | src/main.js:591-597 | an interval holding value and target holds the smoothed value (keeps morph weights in [0,1]) |
| Numerics.SmoothStepsContract | src/main.js:669-673 | after n steps the distance to a fixed target is (1 - alpha)^n times the original |
| Numerics.Centered | src/main.js:515 | `(r - 0.5) * w` for a draw r in [0,1) lies in [-w/2, w/2) |
| Numerics.NextTimestamp | src/main.js:744-745 | the timestamp is strictly above the previous one and not below the clock, and it is one of the two |
| Landmarks.Flatten | src/main.js:492-501 | 63 values; slots 3i, 3i+1, 3i+2 hold x, y and depth of landmark i |
| Landmarks.FlattenPrefix | src/main.js:494 | only the first 21 landmarks are read |
| Landmarks.FlattenLandmarks | src/main.js:492-501 | the loop fills the buffer with exactly the flat layout (the worker's copy at src/hand-worker.js:64-73 is the same loop) |
| Gestures.V3FromFlatten | src/main.js:346-349 | reading landmark i back from a flattened hand gives its x, y and depth |
| Gestures.IsFingerExtended | src/main.js:384-395 | definition: the wrist-to-tip distance exceeds the wrist-to-MCP distance by more than 0.28 hand sizes |
| Gestures.Dist | src/main.js:351-354 | distances are non-negative |
| Gestures.HandSize | src/main.js:367-368 | at least 1e-6 and at least the wrist-to-middle-tip distance, and equal to one of them |
| Gestures.GetHandSignals | src/main.js:357-382 | signals exist exactly for a hand of at least 63 values; hand size at least 1e-6, pinch and spread non-negative, pointer is the index fingertip |
| Gestures.Ratio | src/main.js:390-391 | dividing by the positive hand size keeps the sign |
| Gestures.ExtendedRatio | src/main.js:384-395 | extended exactly when tip distance minus MCP distance exceeds 0.28 hand sizes |
| Gestures.IsOneFingerGesture | src/main.js:397-409 | true only for a complete hand with index up and middle down |
| Gestures.IsTwoFingerGesture | src/main.js:411-421 | true only for a complete hand with middle up and ring down |
| Gestures.IsThreeFingerGesture | src/main.js:423-433 | true only for a complete hand with middle and ring up |
| Gestures.ShortInputHasNoGesture | src/main.js:357-436 | a missing hand or one of fewer than 63 values gives no signals, no finger gesture and no fist |
| Gestures.FingerGesturesExclusive | src/main.js:397-433 | no two of the one-, two- and three-finger gestures hold at once |
| Gestures.CurledFingertips | src/main.js:455-460 | at most four fingertips count as curled |
| Gestures.SumOfMcps | src/main.js:446-452 | the palm sum is the sum of the four MCP joints |
| Gestures.WithinRatio | src/main.js:458-459 | `d / h < radius` exactly when `d < radius * h` |
| Gestures.PalmCenterOf | src/main.js:446-452 | the loop computes the palm centre (mean of the MCP joints) |
| Gestures.CountCurled | src/main.js:455-460 | the loop counts exactly the fingertips within 0.45 hand sizes of the palm |
| Gestures.CountNearFingertips | src/main.js:455-460 | the list-driven count equals the per-fingertip count |
| Gestures.FistGesture | src/main.js:435-467 | the result is the fist predicate: three or more curled fingertips and the thumb tucked |
| Gestures.IsFist | src/main.js:435-467 | definition of the fist: a complete hand with at least three fingertips within 0.45 hand sizes of the palm and the thumb tip within 0.55 |
| HeartCloud.HeartFieldSymmetric | src/main.js:68-73 | the heart field is mirror-symmetric in x |
| HeartCloud.Heart2DField | src/main.js:68-73 | definition of the implicit heart field (x²+y²-1)³ - x²y³; a point is inside when it is at most 0 |
| HeartCloud.Depth | src/main.js:99-101 | the depth before scaling lies in [-0.55, 0.55] |
| HeartCloud.Attempt | src/main.js:90-108 | one attempt: the sample is the window point given by draws next and next+1; it is accepted exactly when inside the heart; an accepted point is the scaled sample plus the jitter of draws next+3, next+4, and its depth comes from draw next+2 and the thickness plus the jitter of draw next+5; it stays within jitter of the scaled sample; draws used are 6 or 2 |
| HeartCloud.SampleInto | src/main.js:86-109 | at most count points, at least one attempt per filled point and at most 400 attempts per point; if short, all attempts were used; the cursor advances by exactly 2 draws per attempt plus 4 per accepted point; every filled slot comes from an accepted sample |
| HeartCloud.FillFallback | src/main.js:111-117 | earlier slots are untouched, every remaining slot lies in the 0.8-wide cube, three draws per slot |
| HeartCloud.BuildHeartTargets | src/main.js:75-120 | 3·count values; accepted samples first, fallback cube for the rest, attempts between the filled count and the bound; the cursor advances by exactly 2 per attempt, 4 per accepted point and 3 per fallback point |
| Fireworks.BaseChannel | src/main.js:133-135 | a base colour channel lies in [0.75, 1) |
| Fireworks.Channel | src/main.js:159-161 | a clamped spark channel lies in [0.675, 1] |
| Fireworks.Speed | src/main.js:153 | speed lies in [4, 7.6) |
| Fireworks.StartPosition | src/main.js:140-142 | a spark starts within 0.05 of the origin on each axis |
| Fireworks.Component | src/main.js:154-156 | a velocity component is bounded by the speed |
| Fireworks.Velocity | src/main.js:149-156 | each velocity component is bounded by the speed |
| Fireworks.SparkColour | src/main.js:158-161 | every spark channel lies in [0.675, 1] |
| Fireworks.SparkAt | src/main.js:137-162 | a spark's position and colour come from its draws; its velocity is below 7.6 per axis |
| Fireworks.Sparks | src/main.js:137 | a burst has 2400 sparks |
| Fireworks.LaunchSparks | src/main.js:127-162 | the buffers hold the sparks drawn in source order; 3 + 9·2400 draws are used |
| Fireworks.StoreSparks | src/main.js:137-162 | the loop writes spark i to slots 3i..3i+2 of the three buffers |
| Fireworks.Opacity | src/main.js:191-198 | opacity is 1 at birth, lies in [0,1] for non-negative age, and is 0 exactly once the life is over |
| Fireworks.OpacityFades | src/main.js:198 | opacity never increases with age |
| Fireworks.Moved | src/main.js:200-206 | the position update keeps the buffer length |
| Fireworks.Damped | src/main.js:207-210 | the velocity update keeps the buffer length |
| Fireworks.DragShrinksHorizontal | src/main.js:207-209 | drag multiplies the x and z speeds by 0.985 |
| Fireworks.Kicked | src/main.js:200 | definition: gravity times dt is added to the y component of each velocity, x and z unchanged |
| Fireworks.RestingSparkFalls | src/main.js:201 | gravity makes a spark at vertical rest fall |
| Fireworks.Burst.constructor | src/main.js:176-177 | a new burst holds its buffers, born now, fully opaque |
| Fireworks.Burst.Advance | src/main.js:200-210 | one spark: gravity, then move, then drag; other sparks unchanged |
| Fireworks.Burst.Step | src/main.js:200-210 | the physics loop yields the moved positions and damped velocities |
| Fireworks.Burst.Tick | src/main.js:191-210 | the opacity is set from the age; positions and velocities are stepped |
| Fireworks.Survivors | src/main.js:214-219 | removal never adds bursts |
| Fireworks.Alive | src/main.js:191-214 | definition: a burst is kept while its age is below its life |
| Fireworks.SurvivorsExactly | src/main.js:189-220 | a burst survives exactly when it was present and is younger than its life |
| Fireworks.SurvivorsSpaced | src/main.js:214-219 | removal keeps the 700 ms spacing of launches |
| Fireworks.ThirdIsUnborn | src/main.js:122-125 | among spaced live bursts, a third one would be born in the future |
| Fireworks.AtMostTwoAlive | src/main.js:122-125 | with the 700 ms cooldown and 1400 ms life, at most two bursts survive an update |
| Fireworks.SurvivorsNoRepeats | src/main.js:214-219 | removal keeps the list free of duplicates |
| Fireworks.SurvivorsWellFormed | src/main.js:183-221 | removal keeps the burst list well formed |
| Fireworks.AppendWellFormed | src/main.js:123-180 | appending a fresh burst launched at least 700 ms after the last launch keeps the burst list well formed: no repeats, no shared buffers, launch times spaced |
| Fireworks.TickAt | src/main.js:190-210 | the loop body steps one burst and leaves the others as they were |
| Fireworks.TickAll | src/main.js:189-220 | the backward loop steps every burst and leaves exactly the survivors, in order |
| Fireworks.FireworkSystem.constructor | src/main.js:33-34 | no bursts, last launch at 0 |
| Fireworks.FireworkSystem.Spawn | src/main.js:122-181 | within 700 ms of the last launch nothing changes; otherwise one fresh burst is appended, launched from the origin now, and the launch time is recorded |
| Fireworks.FireworkSystem.Update | src/main.js:183-221 | every burst is stepped and exactly the survivors remain |
| TextLayout.SplitLines | src/main.js:250 | splitting yields at least one line |
| TextLayout.JoinSplit | src/main.js:250 | joining the lines with '\n' gives back the phrase |
| TextLayout.SplitLinesHaveNoBreak | src/main.js:250 | no line contains '\n' |
| TextLayout.SplitLinesCount | src/main.js:250 | there is one more line than line breaks |
| TextLayout.FitFont | src/main.js:242-248 | the size is on the 170, 164, ... ladder; at 90 or more the phrase fits 86% of the width; every larger size on the ladder does not fit |
| TextLayout.WidestLine | src/main.js:259-263 | the maximum line width: bounds every line and is 0 or one of them |
| TextLayout.MaxLineWidth | src/main.js:259-263 | the loop computes that maximum |
| TextLayout.AtMostTwoLinesFit | src/main.js:265-268 | at 90 px or more, three or more lines never fit 70% of the height |
| TextLayout.FitLines | src/main.js:256-270 | the size is on the ladder from the single-line size; at 90 or more all lines fit; every larger size on it does not |
| TextLayout.LineCentres | src/main.js:273-278 | the line centres are lineH apart and centred on the canvas |
| TextLayout.FitText | src/main.js:240-278 | the lines join back to the phrase and contain no '\n'; the single-line size has FitFont's properties; the final size is on the ladder below it, every larger size of that ladder does not fit, at 90 px or more the lines fit, below 90 px it is exactly 86 px, and three lines always end at 86 px |
| TextCloud.RowLitMembers | src/main.js:286-291 | the row scan collects exactly the lit pixels of the row prefix |
| TextCloud.Lit | src/main.js:287-290 | definition: a pixel is lit when its alpha exceeds 10 and its red exceeds 200 |
| TextCloud.ScanRowsMembers | src/main.js:285-292 | the row-by-row scan collects exactly the lit pixels of the rows seen so far |
| TextCloud.LitPixelsExactly | src/main.js:283-292 | the pixel list holds exactly the lit pixels (alpha above 10, red above 200) |
| TextCloud.ScanLitPixels | src/main.js:283-292 | the nested loops build exactly that list |
| TextCloud.BoundsTight | src/main.js:305-314 | the bounding box encloses every pixel and each side is attained |
| TextCloud.BoundingBox | src/main.js:306-314 | the loop computes that tight box |
| TextCloud.Span | src/main.js:315-316 | the span is at least 1 and at least max - min, and equal to one of them |
| TextCloud.Normalize | src/main.js:330-331 | a pixel in the box normalises into [-0.5, 0.5], the box edges to the ends |
| TextCloud.PixelIndex | src/main.js:325 | `(r * n) \| 0` is a valid index |
| TextCloud.Thickness | src/main.js:338 | the thickness factor lies in [0,1] and is 1 at the centre |
| TextCloud.ThicknessDecreasesOutward | src/main.js:338 | thickness never grows away from the centre |
| TextCloud.ThicknessInsideBox | src/main.js:338 | inside the box the thickness factor is at least 0.4 |
| TextCloud.DepthOf | src/main.js:339 | the unscaled depth lies in [-1, 1] |
| TextCloud.TextPoint | src/main.js:326-340 | the point is within jitter of the scaled, normalised pixel (y flipped), with bounded depth |
| TextCloud.SlotFromPixel | src/main.js:324-341 | every target point comes from some lit pixel and lies within the scaled text block |
| TextCloud.Slot | src/main.js:324-340 | definition of target point i: a lit pixel picked by one draw, normalised to the text box and scaled, with four further draws for jitter and depth |
| TextCloud.MapPixels | src/main.js:324-341 | slot i holds the point made from the five draws at cursor + 5i |
| TextCloud.FallbackCloud | src/main.js:295-303 | every slot lies in the 2 x 1 x 1 box; three draws per slot |
| TextCloud.BuildTextTargets | src/main.js:223-344 | with fewer than 10 lit pixels the fallback box; otherwise every slot is a mapped lit pixel inside the tight box |
| Engine.FrameSeconds | src/main.js:548-549 | dt is the elapsed seconds, capped at 0.05 |
| Engine.PinchScale | src/main.js:566-567 | the target scale lies in [1, 3.5]: 1 for an open pinch, 3.5 for a tight one |
| Engine.PinchScaleMonotone | src/main.js:566-567 | a tighter pinch never gives a smaller scale |
| Engine.SpreadScale | src/main.js:571-572 | the target spread lies in [1, 3.5]: 1 at or below 0.35, 3.5 at or above 0.7 |
| Engine.SpreadScaleMonotone | src/main.js:571-572 | a wider spread never gives a smaller target |
| Engine.ToScene | src/main.js:580-582 | the image centre maps to the scene origin |
| Engine.SceneRoundTrip | src/main.js:580-582 | the image-to-scene map is invertible, both ways |
| Engine.SceneMirrors | src/main.js:580-582 | the map mirrors x and flips y |
| Engine.Blend | src/main.js:627-629 | weight 0 gives the hand target, weight 1 the template |
| Engine.BlendBetween | src/main.js:627-647 | the blend is a smoothing step and stays between its ends on every axis |
| Engine.HandPoint | src/main.js:607-615 | definition: the landmark mapped to scene space, scaled by spread and scale and moved to the swarm centre |
| Engine.PhraseCloud | src/main.js:633-635 | definition: three fingers pick the Valentine cloud, else two fingers the be-my cloud, else the would-you cloud |
| Engine.ParticleTarget | src/main.js:602-648 | definition of particle i's target: its hand point, blended toward the heart and then the phrase template when the morph weight exceeds 0.001 |
| Engine.Steer | src/main.js:564-597 | the swarm stays in range; scale and spread contract toward their pinch and spread targets by 0.85 each frame, without overshoot; the centre contracts toward the pointer by 0.8; the heart morph (first reset to 0 without a left hand) and the text morph contract toward 1 or 0 by 0.88; without a left hand or fist the heart morph is 0; the text morph rises or falls toward its target within [0,1] |
| Engine.Rest | src/main.js:657-673 | both morphs drop to 0; scale, spread and centre contract toward rest by 0.92; the range is kept |
| Engine.IdleScale | src/main.js:669-670 | n idle frames apply n smoothing steps to scale and spread |
| Engine.IdleSettles | src/main.js:669-673 | after n idle frames the distance to rest is 0.92^n of the original |
| Engine.SharedJoint | src/main.js:603-615 | with both morphs off, particles assigned the same joint share their target |
| Engine.FullHeart | src/main.js:617-630 | at full heart morph (text off) a particle's target is the centre plus its heart slot |
| Engine.FullText | src/main.js:632-648 | at full text morph a particle's target is the centre plus its text slot |
| Engine.Lower | src/main.js:760 | lower-casing keeps the length |
| Engine.Label | src/main.js:759-760 | definition: the lower-cased category name, else the display name, else the empty string |
| Engine.Qualifies | src/main.js:757-765 | definition: the hand has exactly 21 points and the wanted label |
| Engine.LastIndex | src/main.js:755-766 | the last hand with 21 points and the given label; none exactly when none qualifies |
| Engine.LastHand | src/main.js:755-766 | that hand flattened to 63 values; none exactly when no hand qualifies |
| Engine.SelectHands | src/main.js:752-766 | the hand loop yields the last qualifying right hand and the last qualifying left hand |
| Engine.Classify | src/main.js:773-818 | the flags are coherent (at most one finger gesture; previous fist mirrors fist); each fist and finger flag equals its gesture predicate on its hand |
| Engine.Gate | src/main.js:795-824 | scale, spread and centre are unchanged; the range is kept |
| Engine.RightGestures | src/main.js:773-802 | with a right hand its fist and finger flags are read; without one they are cleared and the text morph drops to 0 |
| Engine.LeftGesture | src/main.js:813-824 | the left fist is read from the left hand; without one the heart morph drops to 0 |
| Engine.ReadHands | src/main.js:768-824 | primary is right else left; flags as classified; morphs gated; last-seen time updated when a hand is present; results coherent |
| Engine.IdleShape | src/main.js:512-518 | 45000 values, each in [-6, 6) |
| Engine.Scatter | src/main.js:512-518 | the loop fills a fresh buffer with the idle shape |
| Engine.MoveToward | src/main.js:650-652 | one particle takes a smoothing step toward its target; the others are unchanged |
| Engine.Track | src/main.js:602-653 | every particle takes a 0.15 step toward its blended target |
| Engine.ReturnHome | src/main.js:678-688 | every particle takes a 0.02 step toward its idle position |
| Engine.Stage.constructor | src/main.js:503-543 | the buffer holds the idle shape, which is saved as home; the heart and three text templates have 3·15000 values each; the state is at rest with no hands and no fireworks |
| Engine.FirstFrameAtRest | src/main.js:542-551 | the `render()` frame ending `initStage` keeps the resting controls and the particles on their home shape, so only the last render time changes |
| Engine.Stage.AdvanceFireworks | src/main.js:548-551 | the render clock is advanced and the fireworks are stepped with the capped dt |
| Engine.Stage.FollowHand | src/main.js:553-655 | the swarm is steered by the hand signals and every particle tracks its target |
| Engine.Stage.Settle | src/main.js:656-693 | flags are cleared, the swarm rests, and particles return toward home |
| Engine.Stage.Render | src/main.js:545-693 | one frame: fireworks stepped and expired; with a hand the swarm is steered and particles track; without one the flags clear and particles go home; hand state untouched |
| Engine.Stage.Poll | src/main.js:730-738 | within 50 ms of the last detection nothing changes; otherwise the detection time is recorded, and an unready video stops there |
| Engine.Stage.DetectStep | src/main.js:740-824 | a failed bitmap changes nothing; a failed detection only advances the timestamp; a detection stores the selected hands, classified flags, gated morphs and last-seen time, and a right fist launches a firework subject to the cooldown |
| Engine.Stage.Launch | src/main.js:780-791 | the burst is launched from the index fingertip in scene space, subject to the cooldown |
| Engine.Stage.Store | src/main.js:768-811 | the detection's results are stored and the state stays valid |
| HandWorker.Answer | src/hand-worker.js:87-94 | landmarks are posted exactly when the first hand has 21 points, flattened to 63 values; otherwise no hand |
| HandWorker.Stamps | src/hand-worker.js:82-84 | one timestamp per frame |
| HandWorker.StampsIncrease | src/hand-worker.js:82-84 | timestamps strictly increase and never fall behind the clock, whatever the clock does |
| HandWorker.Worker.constructor | src/hand-worker.js:32-33 | no landmarker yet, last timestamp 0 |
| HandWorker.Worker.OnMessage | src/hand-worker.js:75-99 | no image: no reply and no state change; otherwise the frame is closed if closable; an init failure is reported without touching the timestamp; a detection advances the timestamp and posts the error or the answer |

## Left out

- Three.js scene, camera, renderer, materials, point size and rotation, the DOM overlay
  (`ensureGestureText`, `setGestureTextVisible`) and `requestAnimationFrame`. These are
  rendering and UI with no logic of their own.
- Camera setup, `createImageBitmap`, `video.play`, the detector's initialisation
  (`initLandmarker`, the worker's `init`, its preflight fetches and `self.import` shim) and
  `postMessage` transport. These are foreign calls and I/O; their outcomes are parameters
  (`Detection`, `HandWorker.Outcome`, the `initError` argument).
- The once-a-second debug log (`src/main.js:826-835`). It is console output only.
- The alternate handedness field name (`handednesses` or `handedness`). One list is
  taken as given.
- `toLowerCase` is modelled for ASCII letters only. Labels are "Left" and "Right".
- Asynchronous interleaving of the render loop and the detection loop. Each step is
  modelled as an atomic call on `Stage`.
- Floating point: Float32Array storage and JavaScript doubles are modelled as exact reals.
- `Math.sqrt`, `Math.pow`, `Math.acos`, `Math.sin` and `Math.cos` are supplied functions.
  Only the range facts used by the proofs are assumed of them.
- The null checks on `getHandSignals` in `render` and in the fist branch of the
  detection step (`src/main.js:558-562`, `788-790`). They cannot fire: every stored hand
  has 63 values.
- Engine.Stage.Poll: when the throttle passes and the video is ready it runs
  `DetectStep`, whose contract states that step; `Poll`'s own contract says only that the
  detection time is recorded.
- Engine.Stage.DetectStep: the firework is launched after the detection's results are
  stored rather than between the right-hand and left-hand updates. They touch disjoint
  state.
- Engine.Lower: only the length is stated; the mapping itself is the ASCII
  simplification above.
- Fireworks.Moved, Fireworks.Damped: their own contracts give only the length. The
  per-component update is stated by `Fireworks.Burst.Advance` and the drag and gravity
  lemmas.
- Engine.Stage.constructor: its contract fixes the length of the heart and text
  templates only. What they hold is stated by `HeartCloud.BuildHeartTargets` and
  `TextCloud.BuildTextTargets`, which the constructor calls; it does not repeat those
  contracts.
- One clock reading per step. The source reads `performance.now()` again inside
  `updateFireworks` (`src/main.js:186`), and inside `spawnFirework` (`src/main.js:123`)
  after the awaited bitmap. The model passes the step's single `now` to
  `Fireworks.FireworkSystem.Update` and `Fireworks.FireworkSystem.Spawn`. So it does not
  capture the time that passes between those readings.
- Closing the bitmap on the main thread (`src/main.js:839`). It only releases memory.
- The `render()` call at the end of `initStage` (`src/main.js:542`) is not a separate
  step. Its only effect on modelled state is to set the last render time to the clock at
  that call (`src/main.js:548-550`). The constructor takes that reading as
  `firstRenderMs`, in place of the module-load reading of `src/main.js:36`.
  `Engine.FirstFrameAtRest` shows that the rest of that frame changes nothing.
