/** The view's animated state as one value; what each animation listener does
    to it, as a function; the invariant the listeners keep; and one lemma per
    listener saying that the state it leaves behind keeps the invariant and
    which animators run afterwards. The class in SunBaby changes its fields in
    place, and each of its methods is specified by one of these functions. */
module ViewModel {
  import opened SunGeometry
  import opened Phases

  /** Animated end values of the three rising animators. */
  const RISE1_END: real := SUNSHINE_RISE_HEIGHT
  const RISE_FAST_END: real := SUNSHINE_RISE_HEIGHT * 2.5
  const RISE2_END: real := SUNSHINE_RISE_HEIGHT * 1.5

  /** The baselines (committed offsets) the three rising animators leave behind: 8, -22 and -40. */
  const RISE1_BASELINE: real := DEFAULT_OFFSET_Y - RISE1_END
  const RISE_FAST_BASELINE: real := RISE1_BASELINE - RISE_FAST_END
  const RISE2_BASELINE: real := RISE_FAST_BASELINE - RISE2_END

  /** The fields of the view that the listeners read and write (the ray spin
      aside, which nothing else reads), and which animators are running. */
  datatype ViewState = ViewState(
    width: nat, height: nat, geom: Geometry,
    turnOffsetX: real, orect: Rect, once: bool, isDrawEyes: bool,
    offsetY: real, offsetAngle: Angle, tempOffsetY: real, rectF: Rect,
    laidOut: bool, mainPhase: Phase, eyePhase: Option<Phase>)

  /** The animators running in a state (the ever-repeating spin aside). */
  function RunningAnimators(s: ViewState): set<Phase> {
    (if s.laidOut then {s.mainPhase} else {}) + (if s.eyePhase.Some? then {s.eyePhase.value} else {})
  }

  ghost predicate Inv(s: ViewState, asinDeg: real -> real) {
    PhasesInv(s) && LayoutInv(s) && AngleInv(s, asinDeg) && BaselineInv(s) && BoxInv(s) && EyesInv(s)
  }

  /** One main-loop animator runs, at most one eye-chain animator, and only after layout. */
  ghost predicate PhasesInv(s: ViewState) {
    InMainLoop(s.mainPhase) &&
    (s.eyePhase.Some? ==> s.laidOut && InEyeChain(s.eyePhase.value)) &&
    (!s.laidOut ==> s.mainPhase == Rise1 && s.offsetY == DEFAULT_OFFSET_Y)
  }

  /** The derived geometry is that of the view's size. */
  ghost predicate LayoutInv(s: ViewState) {
    s.laidOut ==> s.geom == Layout(s.width, s.height)
  }

  /** The arc angle is that of the current offset. */
  ghost predicate AngleInv(s: ViewState, asinDeg: real -> real) {
    s.laidOut ==> s.offsetAngle == OffsetAngle(s.offsetY, s.geom.sunRadius, asinDeg)
  }

  /** Baseline bookkeeping: what each phase starts from and how far it can have moved. */
  ghost predicate BaselineInv(s: ViewState) {
    (s.mainPhase == Rise1 ==> RISE1_BASELINE <= s.offsetY <= DEFAULT_OFFSET_Y) &&
    (s.mainPhase == RiseFast ==>
       s.tempOffsetY == RISE1_BASELINE && RISE_FAST_BASELINE <= s.offsetY <= RISE1_BASELINE) &&
    (s.mainPhase == Rise2 ==>
       s.tempOffsetY == RISE_FAST_BASELINE && RISE2_BASELINE <= s.offsetY <= RISE_FAST_BASELINE) &&
    (s.mainPhase == Sink ==>
       s.tempOffsetY == RISE2_BASELINE && RISE2_BASELINE <= s.offsetY <= DEFAULT_OFFSET_Y)
  }

  /** Squash and stretch: the snapshot flag is armed outside the fast phases, the
      snapshot is the phase's starting box until it is taken, and the box keeps its centre. */
  ghost predicate BoxInv(s: ViewState) {
    (!s.mainPhase.RiseFast? && !s.mainPhase.Sink? ==> s.once) &&
    (s.mainPhase == RiseFast ==>
       CentreX(s.rectF) == CentreX(s.orect) == CentreX(CleanRect(s.geom, RISE1_BASELINE)) &&
       CentreY(s.rectF) == CentreY(s.orect) == CentreY(CleanRect(s.geom, RISE1_BASELINE))) &&
    (s.mainPhase == RiseFast && s.once ==> s.orect == CleanRect(s.geom, RISE1_BASELINE)) &&
    (s.mainPhase == Sink ==>
       CentreX(s.rectF) == CentreX(s.orect) == CentreX(CleanRect(s.geom, RISE2_BASELINE))) &&
    (s.mainPhase == Sink && s.once ==> s.orect == CleanRect(s.geom, RISE2_BASELINE))
  }

  /** The eyes between and during the steps of the eye chain. */
  ghost predicate EyesInv(s: ViewState) {
    (s.eyePhase == None || s.eyePhase == Some(Blink2) ==> s.turnOffsetX == 0.0) &&
    (s.eyePhase == Some(Blink1) ==> s.turnOffsetX == s.geom.maxEyesTurn) &&
    (s.eyePhase == Some(TurnRight) || s.eyePhase == Some(TurnLeft) ==>
       0.0 <= s.turnOffsetX <= s.geom.maxEyesTurn) &&
    (s.eyePhase == None || s.eyePhase == Some(TurnRight) || s.eyePhase == Some(TurnLeft) ==> s.isDrawEyes)
  }

  // What each listener does to the state. A Finish of the class is the
  // animator's last tick followed by its end listener.

  /** onLayout's derivation of the geometry from the size. */
  function Resized(s: ViewState, w: nat, h: nat): ViewState {
    s.(width := w, height := h, geom := Layout(w, h))
  }

  /** calcAndSetRectPoint: the clean box at the current offset. */
  function BoxAtOffset(s: ViewState): ViewState {
    s.(rectF := CleanRect(s.geom, s.offsetY))
  }

  /** calcOffsetAngle: the arc angle at the current offset. */
  function AngleAtOffset(s: ViewState, asinDeg: real -> real): ViewState {
    s.(offsetAngle := OffsetAngle(s.offsetY, s.geom.sunRadius, asinDeg))
  }

  /** initAnimaDriver: Rise1 starts (and the spin). */
  function Driven(s: ViewState): ViewState {
    s.(laidOut := true, mainPhase := Rise1)
  }

  /** onLayout. */
  function Laid(s: ViewState, w: nat, h: nat, asinDeg: real -> real): ViewState {
    Driven(AngleAtOffset(BoxAtOffset(Resized(s, w, h)), asinDeg))
  }

  /** The sun at offset y: the clean box and the arc angle follow the offset. */
  function MovedTo(s: ViewState, y: real, asinDeg: real -> real): ViewState {
    AngleAtOffset(BoxAtOffset(s.(offsetY := y)), asinDeg)
  }

  /** A Rise1 tick: the offset drops from the default by v. */
  function Rise1Tick(s: ViewState, v: real, asinDeg: real -> real): ViewState {
    MovedTo(s, DEFAULT_OFFSET_Y - v, asinDeg)
  }

  /** Rise1's end listener: the baseline and the box snapshot are taken, RiseFast starts. */
  function Rise1End(s: ViewState): ViewState {
    s.(tempOffsetY := s.offsetY, orect := s.rectF, mainPhase := RiseFast)
  }

  /** The sun's box, its snapshot and the flag that arms the snapshot. */
  datatype Box = Box(rectF: Rect, orect: Rect, once: bool)

  function BoxOf(s: ViewState): Box {
    Box(s.rectF, s.orect, s.once)
  }

  function WithBox(s: ViewState, b: Box): ViewState {
    s.(rectF := b.rectF, orect := b.orect, once := b.once)
  }

  /** The squash and stretch of a RiseFast tick: squashed about the snapshot
      below the middle value, else stretched about the snapshot, which the first
      tick past the middle takes of the current box. */
  function RiseFastBox(b: Box, v: real): Box {
    var middleValue := RISE_FAST_END * 0.5;
    if v < middleValue then b.(rectF := Squashed(b.orect, v))
    else
      var o := if b.once then b.rectF else b.orect;
      Box(Stretched(o, v - middleValue), o, false)
  }

  /** A RiseFast tick: the box squashes or stretches, and the offset rises from the baseline by v. */
  function RiseFastTick(s: ViewState, v: real, asinDeg: real -> real): ViewState {
    AngleAtOffset(WithBox(s, RiseFastBox(BoxOf(s), v)).(offsetY := s.tempOffsetY - v), asinDeg)
  }

  /** RiseFast's end listeners: the baseline is taken, the snapshot re-armed,
      and the eye chain and Rise2 start. */
  function RiseFastEnd(s: ViewState): ViewState {
    s.(tempOffsetY := s.offsetY, once := true, eyePhase := Some(Blink2), mainPhase := Rise2)
  }

  /** A Rise2 tick: the offset rises from the baseline by v. */
  function Rise2Tick(s: ViewState, v: real, asinDeg: real -> real): ViewState {
    MovedTo(s, s.tempOffsetY - v, asinDeg)
  }

  /** Rise2's end listener: the baseline and the box snapshot are taken, Sink starts. */
  function Rise2End(s: ViewState): ViewState {
    s.(tempOffsetY := s.offsetY, orect := s.rectF, mainPhase := Sink)
  }

  /** The animated distance of a Sink from the baseline back to the default offset. */
  function SinkEndValue(s: ViewState): real {
    DEFAULT_OFFSET_Y - s.tempOffsetY
  }

  /** The box of a Sink tick: narrowed about the snapshot below the middle
      value, else widened about the snapshot, which the first tick past the
      middle takes of the current box; moved down by v in both halves. */
  function SinkBox(b: Box, v: real, middleValue: real): Box {
    if v < middleValue then b.(rectF := SinkNarrowed(b.orect, v))
    else
      var o := if b.once then b.rectF else b.orect;
      Box(SinkWidened(o, v, middleValue), o, false)
  }

  /** A Sink tick: the box narrows or widens, and the offset drops from the baseline by v. */
  function SinkTick(s: ViewState, v: real, asinDeg: real -> real): ViewState {
    AngleAtOffset(WithBox(s, SinkBox(BoxOf(s), v, SinkEndValue(s) * 0.5)).(offsetY := s.tempOffsetY + v), asinDeg)
  }

  /** Sink's end listener: the snapshot is re-armed and Rise1 starts again. */
  function SinkEnd(s: ViewState): ViewState {
    s.(once := true, mainPhase := Rise1)
  }

  /** A tick of either blink: 0 hides the eyes, 1 shows them, anything else changes nothing. */
  function BlinkTick(s: ViewState, v: int): ViewState {
    s.(isDrawEyes := if v == 0 then false else if v == 1 then true else s.isDrawEyes)
  }

  /** Blink2's end listener: TurnRight starts. */
  function Blink2End(s: ViewState): ViewState {
    s.(eyePhase := Some(TurnRight))
  }

  /** A tick of either turn: the eyes are shifted right by v. */
  function TurnTick(s: ViewState, v: real): ViewState {
    s.(turnOffsetX := v)
  }

  /** TurnRight's end listener: Blink1 starts. */
  function TurnRightEnd(s: ViewState): ViewState {
    s.(eyePhase := Some(Blink1))
  }

  /** Blink1's end listener: TurnLeft starts. */
  function Blink1End(s: ViewState): ViewState {
    s.(eyePhase := Some(TurnLeft))
  }

  /** TurnLeft's end listener: the eye chain is over. */
  function TurnLeftEnd(s: ViewState): ViewState {
    s.(eyePhase := None)
  }

  // Each listener keeps the invariant and hands over as the transition table says.

  lemma LayoutKeepsInv(s: ViewState, w: nat, h: nat, asinDeg: real -> real)
    requires Inv(s, asinDeg) && !s.laidOut
    ensures Inv(Laid(s, w, h, asinDeg), asinDeg) && RunningAnimators(Laid(s, w, h, asinDeg)) == {Rise1}
  {
  }

  lemma Rise1TickKeepsInv(s: ViewState, v: real, asinDeg: real -> real)
    requires Inv(s, asinDeg) && Rise1 in RunningAnimators(s) && 0.0 <= v <= RISE1_END
    ensures Inv(Rise1Tick(s, v, asinDeg), asinDeg)
    ensures RunningAnimators(Rise1Tick(s, v, asinDeg)) == RunningAnimators(s)
  {
  }

  /** After Rise1's last tick the sun sits on its first baseline, 8. */
  lemma Rise1EndKeepsInv(s: ViewState, asinDeg: real -> real)
    requires Inv(s, asinDeg) && Rise1 in RunningAnimators(s)
    ensures Inv(Rise1End(Rise1Tick(s, RISE1_END, asinDeg)), asinDeg)
    ensures RunningAnimators(Rise1End(Rise1Tick(s, RISE1_END, asinDeg))) ==
              RunningAnimators(s) - {Rise1} + Successors(Rise1)
    ensures Rise1End(Rise1Tick(s, RISE1_END, asinDeg)).tempOffsetY == RISE1_BASELINE
  {
  }

  /** A RiseFast tick keeps the box's centre. */
  lemma RiseFastTickKeepsInv(s: ViewState, v: real, asinDeg: real -> real)
    requires Inv(s, asinDeg) && RiseFast in RunningAnimators(s) && 0.0 <= v <= RISE_FAST_END
    ensures Inv(RiseFastTick(s, v, asinDeg), asinDeg)
    ensures RunningAnimators(RiseFastTick(s, v, asinDeg)) == RunningAnimators(s)
    ensures CentreX(RiseFastTick(s, v, asinDeg).rectF) == CentreX(s.rectF)
    ensures CentreY(RiseFastTick(s, v, asinDeg).rectF) == CentreY(s.rectF)
  {
  }

  /** After RiseFast's last tick the sun sits on its second baseline, -22, and
      the eye chain is started (the previous one being over). The box is the
      snapshot stretched by the full half-travel, 15; the snapshot is the box
      of the last tick below the middle value, or the current box if none came. */
  lemma RiseFastEndKeepsInv(s: ViewState, asinDeg: real -> real)
    requires Inv(s, asinDeg) && RiseFast in RunningAnimators(s) && s.eyePhase == None
    ensures Inv(RiseFastEnd(RiseFastTick(s, RISE_FAST_END, asinDeg)), asinDeg)
    ensures RunningAnimators(RiseFastEnd(RiseFastTick(s, RISE_FAST_END, asinDeg))) ==
              RunningAnimators(s) - {RiseFast} + Successors(RiseFast)
    ensures RiseFastEnd(RiseFastTick(s, RISE_FAST_END, asinDeg)).tempOffsetY == RISE_FAST_BASELINE
    ensures RiseFastEnd(RiseFastTick(s, RISE_FAST_END, asinDeg)).rectF ==
              Stretched(if s.once then s.rectF else s.orect, RISE_FAST_END / 2.0)
  {
  }

  lemma Rise2TickKeepsInv(s: ViewState, v: real, asinDeg: real -> real)
    requires Inv(s, asinDeg) && Rise2 in RunningAnimators(s) && 0.0 <= v <= RISE2_END
    ensures Inv(Rise2Tick(s, v, asinDeg), asinDeg)
    ensures RunningAnimators(Rise2Tick(s, v, asinDeg)) == RunningAnimators(s)
  {
  }

  /** After Rise2's last tick the sun sits on its third baseline, -40. */
  lemma Rise2EndKeepsInv(s: ViewState, asinDeg: real -> real)
    requires Inv(s, asinDeg) && Rise2 in RunningAnimators(s)
    ensures Inv(Rise2End(Rise2Tick(s, RISE2_END, asinDeg)), asinDeg)
    ensures RunningAnimators(Rise2End(Rise2Tick(s, RISE2_END, asinDeg))) ==
              RunningAnimators(s) - {Rise2} + Successors(Rise2)
    ensures Rise2End(Rise2Tick(s, RISE2_END, asinDeg)).tempOffsetY == RISE2_BASELINE
  {
  }

  /** A Sink tick keeps the box on its vertical axis. */
  lemma SinkTickKeepsInv(s: ViewState, v: real, asinDeg: real -> real)
    requires Inv(s, asinDeg) && Sink in RunningAnimators(s) && 0.0 <= v <= SinkEndValue(s)
    ensures Inv(SinkTick(s, v, asinDeg), asinDeg)
    ensures RunningAnimators(SinkTick(s, v, asinDeg)) == RunningAnimators(s)
    ensures CentreX(SinkTick(s, v, asinDeg).rectF) == CentreX(s.rectF)
  {
  }

  /** After Sink's last tick the sun is back at the default offset, 20; the
      baseline is left at -40 until Rise1 ends. */
  lemma SinkEndKeepsInv(s: ViewState, asinDeg: real -> real)
    requires Inv(s, asinDeg) && Sink in RunningAnimators(s)
    ensures Inv(SinkEnd(SinkTick(s, SinkEndValue(s), asinDeg)), asinDeg)
    ensures RunningAnimators(SinkEnd(SinkTick(s, SinkEndValue(s), asinDeg))) ==
              RunningAnimators(s) - {Sink} + Successors(Sink)
    ensures SinkEnd(SinkTick(s, SinkEndValue(s), asinDeg)).offsetY == DEFAULT_OFFSET_Y
    ensures SinkEnd(SinkTick(s, SinkEndValue(s), asinDeg)).tempOffsetY == s.tempOffsetY
  {
  }

  lemma BlinkTickKeepsInv(s: ViewState, v: int, asinDeg: real -> real)
    requires Inv(s, asinDeg) && (Blink2 in RunningAnimators(s) || Blink1 in RunningAnimators(s))
    ensures Inv(BlinkTick(s, v), asinDeg) && RunningAnimators(BlinkTick(s, v)) == RunningAnimators(s)
  {
  }

  /** Blink2 ends with the eyes shown. */
  lemma Blink2EndKeepsInv(s: ViewState, asinDeg: real -> real)
    requires Inv(s, asinDeg) && Blink2 in RunningAnimators(s)
    ensures Inv(Blink2End(BlinkTick(s, 1)), asinDeg)
    ensures RunningAnimators(Blink2End(BlinkTick(s, 1))) ==
              RunningAnimators(s) - {Blink2} + Successors(Blink2)
  {
  }

  lemma TurnTickKeepsInv(s: ViewState, v: real, asinDeg: real -> real)
    requires Inv(s, asinDeg) && (TurnRight in RunningAnimators(s) || TurnLeft in RunningAnimators(s))
    requires 0.0 <= v <= s.geom.maxEyesTurn
    ensures Inv(TurnTick(s, v), asinDeg) && RunningAnimators(TurnTick(s, v)) == RunningAnimators(s)
  {
  }

  /** TurnRight ends with the eyes fully turned. */
  lemma TurnRightEndKeepsInv(s: ViewState, asinDeg: real -> real)
    requires Inv(s, asinDeg) && TurnRight in RunningAnimators(s)
    ensures Inv(TurnRightEnd(TurnTick(s, s.geom.maxEyesTurn)), asinDeg)
    ensures RunningAnimators(TurnRightEnd(TurnTick(s, s.geom.maxEyesTurn))) ==
              RunningAnimators(s) - {TurnRight} + Successors(TurnRight)
  {
  }

  /** Blink1 ends with the eyes shown. */
  lemma Blink1EndKeepsInv(s: ViewState, asinDeg: real -> real)
    requires Inv(s, asinDeg) && Blink1 in RunningAnimators(s)
    ensures Inv(Blink1End(BlinkTick(s, 1)), asinDeg)
    ensures RunningAnimators(Blink1End(BlinkTick(s, 1))) ==
              RunningAnimators(s) - {Blink1} + Successors(Blink1)
  {
  }

  /** TurnLeft ends with the eyes back in place, and starts nothing. */
  lemma TurnLeftEndKeepsInv(s: ViewState, asinDeg: real -> real)
    requires Inv(s, asinDeg) && TurnLeft in RunningAnimators(s)
    ensures Inv(TurnLeftEnd(TurnTick(s, 0.0)), asinDeg)
    ensures RunningAnimators(TurnLeftEnd(TurnTick(s, 0.0))) ==
              RunningAnimators(s) - {TurnLeft} + Successors(TurnLeft)
    ensures TurnLeftEnd(TurnTick(s, 0.0)).isDrawEyes && TurnLeftEnd(TurnTick(s, 0.0)).turnOffsetX == 0.0
  {
  }

  /** RiseFast's snapshot is taken exactly once, by the first tick at or past
      the middle value: a tick below the middle leaves the snapshot and its flag
      alone; the snapshot taken is the current box; later ticks keep it; and
      stretching starts from the box as it was, with no jump at the middle value. */
  lemma RiseFastSnapshotOnce(b: Box, v: real, w: real)
    requires v >= RISE_FAST_END / 2.0
    ensures w < RISE_FAST_END / 2.0 ==> RiseFastBox(b, w).once == b.once && RiseFastBox(b, w).orect == b.orect
    ensures b.once ==> RiseFastBox(b, v).orect == b.rectF
    ensures !b.once ==> RiseFastBox(b, v).orect == b.orect
    ensures !RiseFastBox(b, v).once
    ensures RiseFastBox(RiseFastBox(b, v), w).orect == RiseFastBox(b, v).orect
    ensures b.once ==> RiseFastBox(b, RISE_FAST_END / 2.0).rectF == b.rectF
  {
  }

  /** The same for Sink's snapshot. */
  lemma SinkSnapshotOnce(b: Box, v: real, w: real, middleValue: real)
    requires v >= middleValue
    ensures w < middleValue ==> SinkBox(b, w, middleValue).once == b.once && SinkBox(b, w, middleValue).orect == b.orect
    ensures b.once ==> SinkBox(b, v, middleValue).orect == b.rectF
    ensures !b.once ==> SinkBox(b, v, middleValue).orect == b.orect
    ensures !SinkBox(b, v, middleValue).once
    ensures SinkBox(SinkBox(b, v, middleValue), w, middleValue).orect == SinkBox(b, v, middleValue).orect
  {
  }

  /** Sink moves its box down twice for the ticks before the snapshot: after a
      first-half tick at v1 and a second-half tick at v, the box is v1 further
      down than the clean box at the offset the tick sets, because the snapshot
      is taken of a box already lowered by v1 and then lowered by v again. */
  lemma {:induction false} SinkBoxLowerThanOffset(s: ViewState, v1: real, v: real, asinDeg: real -> real)
    requires Inv(s, asinDeg) && s.laidOut && s.mainPhase == Sink && s.once
    requires 0.0 <= v1 < SinkEndValue(s) * 0.5 <= v <= SinkEndValue(s)
    ensures var t := SinkTick(SinkTick(s, v1, asinDeg), v, asinDeg);
            t.offsetY == RISE2_BASELINE + v &&
            CentreY(t.rectF) == CentreY(CleanRect(s.geom, t.offsetY)) + v1 &&
            Height(t.rectF) == 2.0 * s.geom.sunRadius
  {
    var t1 := SinkTick(s, v1, asinDeg);
    assert t1.rectF == SinkNarrowed(CleanRect(s.geom, RISE2_BASELINE), v1);
    assert t1.once && SinkEndValue(t1) == SinkEndValue(s);
    var t := SinkTick(t1, v, asinDeg);
    assert t.rectF == SinkWidened(t1.rectF, v, SinkEndValue(s) * 0.5);
  }

  /** One turn of the main loop from the start of Rise1, each animator ending
      with its last tick. */
  function MainLoopTurn(s: ViewState, asinDeg: real -> real): ViewState {
    var a := Rise1End(Rise1Tick(s, RISE1_END, asinDeg));
    var b := RiseFastEnd(RiseFastTick(a, RISE_FAST_END, asinDeg));
    var c := Rise2End(Rise2Tick(b, RISE2_END, asinDeg));
    SinkEnd(SinkTick(c, SinkEndValue(c), asinDeg))
  }

  /** A turn of the main loop brings the sun back to the default offset with
      Rise1 running again, the geometry untouched, the last baseline -40 and
      the eye chain started. The box is left widened by Sink's second half,
      30 wider than the clean box; only Rise1's first tick makes it clean again. */
  lemma {:induction false} MainLoopTurnReturns(s: ViewState, asinDeg: real -> real)
    requires Inv(s, asinDeg) && s.laidOut && s.mainPhase == Rise1 && s.eyePhase == None
    ensures Inv(MainLoopTurn(s, asinDeg), asinDeg)
    ensures RunningAnimators(MainLoopTurn(s, asinDeg)) == {Rise1, Blink2}
    ensures MainLoopTurn(s, asinDeg).offsetY == DEFAULT_OFFSET_Y
    ensures MainLoopTurn(s, asinDeg).tempOffsetY == RISE2_BASELINE
    ensures MainLoopTurn(s, asinDeg).geom == s.geom && MainLoopTurn(s, asinDeg).once
    ensures MainLoopTurn(s, asinDeg).rectF == SinkWidened(CleanRect(s.geom, RISE2_BASELINE), 60.0, 30.0)
    ensures Width(MainLoopTurn(s, asinDeg).rectF) == 2.0 * s.geom.sunRadius + 30.0
    ensures Rise1Tick(MainLoopTurn(s, asinDeg), 0.0, asinDeg).rectF == CleanRect(s.geom, DEFAULT_OFFSET_Y)
  {
    var a := Rise1End(Rise1Tick(s, RISE1_END, asinDeg));
    Rise1EndKeepsInv(s, asinDeg);
    var b := RiseFastEnd(RiseFastTick(a, RISE_FAST_END, asinDeg));
    RiseFastEndKeepsInv(a, asinDeg);
    var c := Rise2End(Rise2Tick(b, RISE2_END, asinDeg));
    Rise2EndKeepsInv(b, asinDeg);
    SinkEndKeepsInv(c, asinDeg);
  }

  /** With the view at least 160 wide the radius is at least 40, so the offset
      never leaves it and the arc angle is always a number. */
  lemma WideViewKeepsArc(s: ViewState, asinDeg: real -> real)
    requires Inv(s, asinDeg) && s.laidOut && s.width >= 160
    ensures s.offsetAngle.Degrees?
  {
  }

  /** With a view narrower than 160 the radius is below 40, and Rise2 leaves
      the sun at -40, outside it: the arc angle is NaN at the start of every Sink. */
  lemma NarrowViewLosesArc(s: ViewState, asinDeg: real -> real)
    requires Inv(s, asinDeg) && s.laidOut && s.mainPhase == Rise2 && 0 < s.width < 160
    ensures Rise2End(Rise2Tick(s, RISE2_END, asinDeg)).offsetY == RISE2_BASELINE
    ensures Rise2End(Rise2Tick(s, RISE2_END, asinDeg)).offsetAngle == NaN
  {
  }

  /** The offset never leaves the travel of one cycle, 20 down to -40. */
  lemma OffsetWithinTravel(s: ViewState, asinDeg: real -> real)
    requires Inv(s, asinDeg)
    ensures RISE2_BASELINE <= s.offsetY <= DEFAULT_OFFSET_Y
  {
  }
}
