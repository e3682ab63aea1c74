# Sun baby loading view, modelled in Dafny

`SunBabyLoadingView` is an Android loading widget: a sun rises over a
horizon line, squashes and stretches, blinks and looks right and left,
sinks again, and starts over, while nine rays spin around it. Under the
drawing calls sits a small engine of two parts, and this project models
both:

* **Geometry** (`geometry.dfy`, module `SunGeometry`). `onLayout` derives
  the horizon line, the sun's radius and the eyes' travel from the view's
  size. `calcAndSetRectPoint` places the square box the sun's arc is drawn
  in. `calcOffsetAngle` and `onDraw` give the arc's start and sweep.
  `drawSunEyes` places the eyes or hides them, and `drawSunshine` keeps
  or culls each of the nine rays. The box distortions of the two fast
  phases are here too.
* **Animation sequencer** (`phases.dfy`, module `Phases`;
  `view_model.dfy`, module `ViewModel`; `sun_baby_loading_view.dfy`,
  module `SunBaby`). Each `ValueAnimator` update listener and end
  listener changes the view's fields in place. The class
  `SunBaby.SunBabyLoadingView` holds those fields. It has one method per
  update listener (`…Update`, taking the animated value) and one per
  animator end (`…Finish`: the animator's last frame, then its end
  listeners in the order they were registered).
  * Each method's contract gives its new `State()`, the fields as one
    `ViewModel.ViewState` value, as a `ViewModel` function of the old
    state.
  * Each method keeps the class invariant `Valid()`, using the
    `ViewModel` lemma for that function.
  * `Phases` is the animators' transition table: the main loop
    Rise1 → RiseFast → Rise2 → Sink → Rise1, and the eye chain
    Blink2 → TurnRight → Blink1 → TurnLeft that RiseFast's end starts.

Java's `Math.asin`, `Math.sin` and `Math.cos` (in degrees) are the three
functions of a `Trig` value, which the view holds as a constant. Nothing
about them is assumed except, in one lemma, `asin(0) = 0`. Floats are
`real`. A NaN from `asin` or from a division by a zero radius is
`Angle.NaN`.

Two behaviours of the code are stated as lemmas, because they differ from
what the widget's design describes:

* The design says a full turn of the main loop ends with a clean,
  undistorted box. The code leaves the box widened by Sink's second half
  (`ViewModel.MainLoopTurnReturns`); only Rise1's first tick resets it. When
  Sink delivers a first-half tick v1 before crossing the middle value, the
  second half also places the box v1 lower than the offset says
  (`ViewModel.SinkBoxLowerThanOffset`). The snapshot at lines 372-375 is
  taken of a box already moved down by v1, and line 379 moves it down
  again by the full v.
* The design asks that the offset stay within the sun's radius, so that
  `asin` is defined. The offsets are fixed pixel values from 20 to -40, and
  the radius is a quarter of the width. So for views narrower than 160
  pixels the arc angle is NaN at the start of every Sink
  (`ViewModel.NarrowViewLosesArc`). An example is the 120 dp default size
  (line 28) on a display of density 1. From 160 pixels up it is always a
  number (`ViewModel.WideViewKeepsArc`).

## Model

| member | source | states |
|---|---|---|
| SunGeometry.Layout | app/src/main/java/com/zuck/swipe/sunbaby/view/SunBabyLoadingView.java:218-232 | the horizon line is 5/6 of the width and centred at width/2, at 3/4 of the height; the text is centred; the sun's radius is 3/10 of the line (width/4); the eyes may turn by half the sun's outer radius |
| SunGeometry.LayoutOfSquare360 | app/src/main/java/com/zuck/swipe/sunbaby/view/SunBabyLoadingView.java:218-232 | the concrete derivation for a 360 × 360 view |
| SunGeometry.CleanRect | app/src/main/java/com/zuck/swipe/sunbaby/view/SunBabyLoadingView.java:249-256 | the sun's box is a square of side twice the radius, centred on the middle of the horizon line and offsetY below it |
| SunGeometry.OffsetAngle | app/src/main/java/com/zuck/swipe/sunbaby/view/SunBabyLoadingView.java:242-244 | the arc angle is asin(offsetY / sunRadius); it is a number exactly when the radius is positive and the offset is within the radius, and NaN for a zero radius |
| SunGeometry.ArcSpan | app/src/main/java/com/zuck/swipe/sunbaby/view/SunBabyLoadingView.java:612 | the arc's mid-angle is always -90 (straight up), its sweep plus twice the offset angle is 180, and the sweep is 180 exactly when the offset angle is 0; there is an arc exactly when the angle is a number |
| SunGeometry.ArcOnHorizonIsHalfCircle | app/src/main/java/com/zuck/swipe/sunbaby/view/SunBabyLoadingView.java:612 | with the sun on the horizon (offsetY = 0) the arc is the upper half circle, from -180 sweeping 180 |
| SunGeometry.SunEyes | app/src/main/java/com/zuck/swipe/sunbaby/view/SunBabyLoadingView.java:642-653 | the eyes are placed only while the sun's centre is above the horizon (offsetY < 0); both share one y, 6 above the centre; they are maxEyesTurn apart; the right eye is at width/2 + turnOffsetX |
| SunGeometry.RayAngles | app/src/main/java/com/zuck/swipe/sunbaby/view/SunBabyLoadingView.java:630 | the ray loop visits exactly the nine angles 0, 45, …, 360 |
| SunGeometry.RayAt | app/src/main/java/com/zuck/swipe/sunbaby/view/SunBabyLoadingView.java:631-635 | a ray runs along angle a + offsetSpin from radius sunRadius + 22 to radius sunRadius + 37, about the point (width/2, lineStartY + offsetY) |
| SunGeometry.DrawnRays | app/src/main/java/com/zuck/swipe/sunbaby/view/SunBabyLoadingView.java:629-640 | the loop never draws more rays than it visits angles |
| SunGeometry.DrawnRaysSound | app/src/main/java/com/zuck/swipe/sunbaby/view/SunBabyLoadingView.java:636-638 | every drawn ray is a whole, unclipped ray at a visited angle, with both ends on or above the horizon |
| SunGeometry.DrawnRaysComplete | app/src/main/java/com/zuck/swipe/sunbaby/view/SunBabyLoadingView.java:636-638 | every ray at a visited angle whose ends are both on or above the horizon is drawn |
| SunGeometry.RayDrawn | app/src/main/java/com/zuck/swipe/sunbaby/view/SunBabyLoadingView.java:636 | a ray is drawn exactly when its lower end (the larger y) is on or above the horizon |
| SunGeometry.RayDecidedByLowerEnd | app/src/main/java/com/zuck/swipe/sunbaby/view/SunBabyLoadingView.java:636 | whether a ray is drawn depends on its lower end alone: the inner end when it points up, the outer end when it points down |
| SunGeometry.Squashed | app/src/main/java/com/zuck/swipe/sunbaby/view/SunBabyLoadingView.java:534 | RiseFast's first half keeps the box's centre, widens it by v on each side and shortens it by v at top and bottom |
| SunGeometry.Stretched | app/src/main/java/com/zuck/swipe/sunbaby/view/SunBabyLoadingView.java:543 | RiseFast's second half keeps the centre of the snapshot, narrows it by v - 15 on each side and lengthens it by v - 15 at top and bottom |
| SunGeometry.StretchUndoesSquash | app/src/main/java/com/zuck/swipe/sunbaby/view/SunBabyLoadingView.java:533-544 | stretching by d undoes squashing by d, and the reverse |
| SunGeometry.SinkNarrowed | app/src/main/java/com/zuck/swipe/sunbaby/view/SunBabyLoadingView.java:367-369 | Sink's first half keeps the box's horizontal centre, moves it down by v and narrows it by v/2 on each side |
| SunGeometry.SinkWidened | app/src/main/java/com/zuck/swipe/sunbaby/view/SunBabyLoadingView.java:378-379 | Sink's second half keeps the snapshot's horizontal centre, moves it down by v and widens it by (v - middle)/2 on each side |
| Phases.Successors | app/src/main/java/com/zuck/swipe/sunbaby/view/SunBabyLoadingView.java:261-341 | the end-listener table: no animator restarts itself, only TurnLeft starts nothing, an eye animator starts only eye animators, and only RiseFast starts two |
| Phases.LoopSuccessor | app/src/main/java/com/zuck/swipe/sunbaby/view/SunBabyLoadingView.java:261-308 | each main-loop animator's end starts exactly one main-loop animator; the only other animator started is Blink2, and only by RiseFast |
| Phases.MainLoopPeriod | app/src/main/java/com/zuck/swipe/sunbaby/view/SunBabyLoadingView.java:261-308 | the main loop has period four and visits Rise1, RiseFast, Rise2 and Sink once each |
| Phases.EyeChainFrom | app/src/main/java/com/zuck/swipe/sunbaby/view/SunBabyLoadingView.java:313-341 | following the end listeners from an eye animator gives a chain in which each animator starts just the next one and the last starts none |
| Phases.EyeChainOrder | app/src/main/java/com/zuck/swipe/sunbaby/view/SunBabyLoadingView.java:313-341 | the chain RiseFast starts is Blink2, TurnRight, Blink1, TurnLeft, and TurnLeft starts nothing |
| Phases.EyeChainEndsWithinLoop | app/src/main/java/com/zuck/swipe/sunbaby/view/SunBabyLoadingView.java:359-568 | with the start delays and durations set at lines 359, 403, 431-432, 451-452, 475-476, 495-496, 527 and 568, the eye chain takes 2900 ms, less than the 5900 ms until RiseFast ends again, so two eye chains never overlap |
| ViewModel.LayoutKeepsInv | app/src/main/java/com/zuck/swipe/sunbaby/view/SunBabyLoadingView.java:211-237 | the first layout leaves a valid state in which Rise1 is the one animator running |
| ViewModel.Rise1TickKeepsInv | app/src/main/java/com/zuck/swipe/sunbaby/view/SunBabyLoadingView.java:570-579 | a Rise1 tick keeps the invariant and the set of running animators |
| ViewModel.Rise1EndKeepsInv | app/src/main/java/com/zuck/swipe/sunbaby/view/SunBabyLoadingView.java:580-585 | Rise1's end commits the baseline 8 and hands over to RiseFast |
| ViewModel.RiseFastTickKeepsInv | app/src/main/java/com/zuck/swipe/sunbaby/view/SunBabyLoadingView.java:529-550 | a RiseFast tick keeps the invariant and the running animators, and leaves the box's centre where it was |
| ViewModel.RiseFastEndKeepsInv | app/src/main/java/com/zuck/swipe/sunbaby/view/SunBabyLoadingView.java:551-557 | RiseFast's end commits the baseline -22 and hands over to Rise2 and Blink2; the box is the snapshot stretched by 15 |
| ViewModel.Rise2TickKeepsInv | app/src/main/java/com/zuck/swipe/sunbaby/view/SunBabyLoadingView.java:405-414 | a Rise2 tick keeps the invariant and the running animators |
| ViewModel.Rise2EndKeepsInv | app/src/main/java/com/zuck/swipe/sunbaby/view/SunBabyLoadingView.java:415-420 | Rise2's end commits the baseline -40 and hands over to Sink |
| ViewModel.SinkTickKeepsInv | app/src/main/java/com/zuck/swipe/sunbaby/view/SunBabyLoadingView.java:361-386 | a Sink tick keeps the invariant and the running animators, and keeps the box on its vertical axis |
| ViewModel.SinkEndKeepsInv | app/src/main/java/com/zuck/swipe/sunbaby/view/SunBabyLoadingView.java:387-392 | Sink's last tick brings the offset back to 20 without touching the baseline, and its end hands over to Rise1 |
| ViewModel.BlinkTickKeepsInv | app/src/main/java/com/zuck/swipe/sunbaby/view/SunBabyLoadingView.java:497-508 | a blink tick keeps the invariant and the running animators |
| ViewModel.Blink2EndKeepsInv | app/src/main/java/com/zuck/swipe/sunbaby/view/SunBabyLoadingView.java:317-322 | Blink2 ends on 1 (eyes shown) and hands over to TurnRight |
| ViewModel.TurnTickKeepsInv | app/src/main/java/com/zuck/swipe/sunbaby/view/SunBabyLoadingView.java:477-483 | a turn tick within 0 .. maxEyesTurn keeps the invariant and the running animators |
| ViewModel.TurnRightEndKeepsInv | app/src/main/java/com/zuck/swipe/sunbaby/view/SunBabyLoadingView.java:324-336 | TurnRight ends fully turned and hands over to Blink1 |
| ViewModel.Blink1EndKeepsInv | app/src/main/java/com/zuck/swipe/sunbaby/view/SunBabyLoadingView.java:329-334 | Blink1 ends on 1 (eyes shown) and hands over to TurnLeft |
| ViewModel.TurnLeftEndKeepsInv | app/src/main/java/com/zuck/swipe/sunbaby/view/SunBabyLoadingView.java:429-441 | TurnLeft ends with the eyes shown and back at offset 0, and starts nothing |
| ViewModel.RiseFastSnapshotOnce | app/src/main/java/com/zuck/swipe/sunbaby/view/SunBabyLoadingView.java:533-544 | ticks below the middle value leave the snapshot and its flag alone; the first tick at or past it snapshots the current box; later ticks keep that snapshot; stretching starts from the box as it was, with no jump |
| ViewModel.SinkSnapshotOnce | app/src/main/java/com/zuck/swipe/sunbaby/view/SunBabyLoadingView.java:366-380 | ticks below the middle value leave the snapshot and its flag alone; the first tick at or past it snapshots the current box; later ticks keep that snapshot |
| ViewModel.MainLoopTurnReturns | app/src/main/java/com/zuck/swipe/sunbaby/view/SunBabyLoadingView.java:261-308 | one turn of the main loop returns the sun to offset 20 with Rise1 running again, the baseline at -40, the snapshot re-armed, the geometry untouched and the eye chain started; the box is left 30 wider than the clean box and is clean again only after Rise1's first tick |
| ViewModel.SinkBoxLowerThanOffset | app/src/main/java/com/zuck/swipe/sunbaby/view/SunBabyLoadingView.java:366-382 | after a first-half Sink tick v1 and a second-half tick v, the box is v1 lower than the clean box at the offset baseline + v |
| ViewModel.WideViewKeepsArc | app/src/main/java/com/zuck/swipe/sunbaby/view/SunBabyLoadingView.java:242-244 | in a view at least 160 wide the arc angle is always a number |
| ViewModel.NarrowViewLosesArc | app/src/main/java/com/zuck/swipe/sunbaby/view/SunBabyLoadingView.java:242-244 | in a view narrower than 160 the arc angle is NaN when Rise2 ends, at offset -40 |
| ViewModel.OffsetWithinTravel | app/src/main/java/com/zuck/swipe/sunbaby/view/SunBabyLoadingView.java:382 | in every valid state the offset lies between -40 and 20 |
| SunBaby.SunBabyLoadingView.constructor | app/src/main/java/com/zuck/swipe/sunbaby/view/SunBabyLoadingView.java:118-126 | a new view is valid, not laid out, runs no animator, has offset and baseline 20, the snapshot armed, the eyes shown and not turned |
| SunBaby.SunBabyLoadingView.OnLayout | app/src/main/java/com/zuck/swipe/sunbaby/view/SunBabyLoadingView.java:211-237 | the first layout derives the geometry, places the box and the arc angle and starts Rise1, keeping the invariant |
| SunBaby.SunBabyLoadingView.CalcAndSetRectPoint | app/src/main/java/com/zuck/swipe/sunbaby/view/SunBabyLoadingView.java:249-256 | only the box changes, to the clean box at the current offset |
| SunBaby.SunBabyLoadingView.CalcOffsetAngle | app/src/main/java/com/zuck/swipe/sunbaby/view/SunBabyLoadingView.java:242-244 | only the arc angle changes, to the angle of the current offset |
| SunBaby.SunBabyLoadingView.InitAnimaDriver | app/src/main/java/com/zuck/swipe/sunbaby/view/SunBabyLoadingView.java:261-283 | the driver marks the view laid out and starts Rise1; nothing else changes |
| SunBaby.SunBabyLoadingView.SpinUpdate | app/src/main/java/com/zuck/swipe/sunbaby/view/SunBabyLoadingView.java:597-603 | a spin tick sets the rays' rotation and nothing else |
| SunBaby.SunBabyLoadingView.Rise1Update | app/src/main/java/com/zuck/swipe/sunbaby/view/SunBabyLoadingView.java:570-579 | the offset becomes 20 - v, with the box and arc angle following; the invariant and running animators are kept |
| SunBaby.SunBabyLoadingView.Rise1Finish | app/src/main/java/com/zuck/swipe/sunbaby/view/SunBabyLoadingView.java:580-585 | the last Rise1 tick, then the baseline and snapshot are taken and RiseFast replaces Rise1 |
| SunBaby.SunBabyLoadingView.SquashAndStretch | app/src/main/java/com/zuck/swipe/sunbaby/view/SunBabyLoadingView.java:533-544 | only the box, the snapshot and its flag change, as RiseFastBox says |
| SunBaby.SunBabyLoadingView.RiseFastUpdate | app/src/main/java/com/zuck/swipe/sunbaby/view/SunBabyLoadingView.java:529-550 | the box squashes or stretches and the offset becomes baseline - v; the invariant and running animators are kept |
| SunBaby.SunBabyLoadingView.RiseFastFinish | app/src/main/java/com/zuck/swipe/sunbaby/view/SunBabyLoadingView.java:551-557 | the last RiseFast tick, then the baseline is taken, the snapshot re-armed, and Rise2 and Blink2 replace RiseFast |
| SunBaby.SunBabyLoadingView.Rise2Update | app/src/main/java/com/zuck/swipe/sunbaby/view/SunBabyLoadingView.java:405-414 | the offset becomes baseline - v, with the box and arc angle following; the invariant and running animators are kept |
| SunBaby.SunBabyLoadingView.Rise2Finish | app/src/main/java/com/zuck/swipe/sunbaby/view/SunBabyLoadingView.java:415-420 | the last Rise2 tick, then the baseline and snapshot are taken and Sink replaces Rise2 |
| SunBaby.SunBabyLoadingView.NarrowAndWiden | app/src/main/java/com/zuck/swipe/sunbaby/view/SunBabyLoadingView.java:366-380 | only the box, the snapshot and its flag change, as SinkBox says |
| SunBaby.SunBabyLoadingView.SinkUpdate | app/src/main/java/com/zuck/swipe/sunbaby/view/SunBabyLoadingView.java:361-386 | the box narrows or widens and the offset becomes baseline + v; the invariant and running animators are kept |
| SunBaby.SunBabyLoadingView.SinkFinish | app/src/main/java/com/zuck/swipe/sunbaby/view/SunBabyLoadingView.java:387-392 | the last Sink tick, then the snapshot is re-armed and Rise1 replaces Sink |
| SunBaby.SunBabyLoadingView.BlinkUpdate | app/src/main/java/com/zuck/swipe/sunbaby/view/SunBabyLoadingView.java:497-508 | 0 hides the eyes, 1 shows them, anything else changes nothing |
| SunBaby.SunBabyLoadingView.Blink2Finish | app/src/main/java/com/zuck/swipe/sunbaby/view/SunBabyLoadingView.java:317-322 | the last Blink2 tick (1), then TurnRight replaces Blink2 |
| SunBaby.SunBabyLoadingView.TurnEyesUpdate | app/src/main/java/com/zuck/swipe/sunbaby/view/SunBabyLoadingView.java:477-483 | the eyes' shift becomes v and nothing else changes |
| SunBaby.SunBabyLoadingView.TurnRightFinish | app/src/main/java/com/zuck/swipe/sunbaby/view/SunBabyLoadingView.java:324-336 | the last TurnRight tick (maxEyesTurn), then Blink1 replaces TurnRight |
| SunBaby.SunBabyLoadingView.Blink1Finish | app/src/main/java/com/zuck/swipe/sunbaby/view/SunBabyLoadingView.java:329-334 | the last Blink1 tick (1), then TurnLeft replaces Blink1 |
| SunBaby.SunBabyLoadingView.TurnLeftFinish | app/src/main/java/com/zuck/swipe/sunbaby/view/SunBabyLoadingView.java:429-441 | the last TurnLeft tick (0), after which no eye animator runs |
| SunBaby.SunBabyLoadingView.SunArc | app/src/main/java/com/zuck/swipe/sunbaby/view/SunBabyLoadingView.java:612 | once laid out, the arc exists exactly when the radius is positive and the offset lies within it: always at a width of at least 160, never at offset -40 below that width, never at width 0; its mid-angle is -90 |
| SunBaby.SunBabyLoadingView.DrawnEyes | app/src/main/java/com/zuck/swipe/sunbaby/view/SunBabyLoadingView.java:614-615 | the eyes are drawn exactly when the blink flag is set and the sun's centre is above the horizon; never during Rise1; during Rise2 exactly when the flag is set |
| SunBaby.SunBabyLoadingView.DrawSunshine | app/src/main/java/com/zuck/swipe/sunbaby/view/SunBabyLoadingView.java:629-640 | the loop draws exactly the rays DrawnRays gives for the nine visited angles, in loop order |

## Left out

- `onMeasure`: display-density and `MeasureSpec` plumbing. The view's size is a parameter of `OnLayout`.
- `initRes`, the paints and colours: configuration. Only its stroke widths are kept, as constants (10 for the sun, 5 for the line).
- `textY` and `drawUnderLineView`: they depend on font metrics and canvas painting.
- The canvas calls and `postInvalidate`: rendering side effects. The model keeps the coordinates and the draw-or-not decisions behind them.
- Animator timing, interpolators and repetition: a tick is a method call taking any value in the animator's range. The start delays and durations are kept as numbers in `Phases`, for the lemma that the eye chain ends within one turn of the loop.
- `Canvas.drawArc` with NaN angles (line 612 passes them on): the model assumes it draws nothing, and `ArcSpan` gives None for them.
- `Float.parseFloat` round trips and float rounding: values are `real`.
- The numeric values of `Math.asin`, `Math.sin`, `Math.cos` and `Math.toRadians`: these are uninterpreted functions of degrees, held in the `Trig` constant.
- SunBaby.SunBabyLoadingView.OnLayout: models the first layout only (`requires !laidOut`). A later layout starts a second, concurrent set of animators, which this sequential model does not capture.
- SunBaby.SunBabyLoadingView.RiseFastFinish: requires that no eye animator is running. Real timing makes this hold (`Phases.EyeChainEndsWithinLoop`), but the model does not derive it from timing.
- The six values `onLayout` derives (`lineStartX`, `lineStartY`, `lineLength`, `textX`, `sunRadius`, `maxEyesTurn`) are one `Geometry` field, `geom`.
- The four `orect…` floats are one `Rect` field, `orect`.
- The four `sunshine…` fields are locals of `DrawSunshine`. The source uses them only inside that loop.
- The tick that `ValueAnimator.start()` delivers at the start value is an ordinary `…Update` call.
- Blink1 and Blink2 have identical update listeners, so one `BlinkUpdate` method serves both. TurnRight and TurnLeft share `TurnEyesUpdate` in the same way.
- The spin's rotation `offsetSpin` is not part of `State()`: nothing but `drawSunshine` reads it.
- Listeners run one at a time on the UI thread. The model treats each listener as one sequential method call.
